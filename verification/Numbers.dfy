/** The largest integer up to which every integer is a JavaScript number of its own. */
module Numbers {

  const MAX_SAFE_INTEGER: int := 0x1F_FFFF_FFFF_FFFF
}
