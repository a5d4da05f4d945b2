/** Where the dashboard's static images live. */
module Assets {
  const ASSET_PATH := "assets/"
}
