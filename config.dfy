/** The configuration constants the core reads: the game settings of the browser
    configuration object and the server's upload and CSV settings. Lengths are in
    scene units, as in the source. */
module Config {

  // Game settings
  const RACE_DISTANCE: real := 150.0
  const BOAT_SPEED: real := 0.4
  const FINISH_LINE_Z: real := 75.0
  const START_POSITION_Z: real := -75.0

  // Boat settings
  const BOAT_1_X: real := -9.0
  const BOAT_2_X: real := 10.0
  const BOAT_BASE_Y: real := 10.0

  // Water and river settings
  const WATER_WIDTH: real := 50.0
  const WATER_LENGTH: real := 500.0
  const RIVER_WIDTH: real := 50.0
  const BANK_WIDTH: real := 95.0
  const RIVER_LENGTH: real := 250.0

  // Animation settings
  const WAVE_AMPLITUDE: real := 0.3
  const WAVE_FREQUENCY: real := 0.01

  // Camera settings
  const CAMERA_OFFSET_Z: real := -30.0

  /** Math.PI, written out as the double it denotes. */
  const PI: real := 3.141592653589793

  // Server settings
  const UPLOAD_FOLDER: string := "static/uploads"
  const STATIC_FOLDER: string := "static"
  const CSV_DATA_FILE: string := "data.csv"
  const ALLOWED_EXTENSIONS: set<string> := {"png", "jpg", "jpeg", "gif", "mp3", "wav", "ogg"}
  const ALLOWED_IMAGE_EXTENSIONS: set<string> := {"png", "jpg", "jpeg", "gif"}
}
