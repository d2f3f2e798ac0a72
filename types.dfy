/** Machine types and small wrappers shared by the portal model. */
module PortalTypes {

  /** C `uint32_t` / GLib `guint32`. */
  newtype uint32 = x: int | 0 <= x < 0x1_0000_0000

  /** C `int` / GLib `gint` (32 bits on every platform the program targets). */
  newtype int32 = x: int | -0x8000_0000 <= x < 0x8000_0000

  /** GLib's G_MAXINT: `g_random_int_range(0, G_MAXINT)` draws from [0, G_MAXINT). */
  const GMaxInt: int := 0x7fff_ffff

  datatype Option<+T> = None | Some(value: T)

  /** True when character `c` does not occur in `s`. */
  predicate Free(s: string, c: char) {
    forall i :: 0 <= i < |s| ==> s[i] != c
  }

  /** A string that fits a NUL-terminated C buffer without being cut short. */
  predicate CString(s: string) {
    Free(s, '\0')
  }
}
