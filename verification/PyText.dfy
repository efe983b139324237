/** What Python's `str.strip` takes for white space. */
module PyText {
  predicate Space(c: char)
  {
    var n := c as int;
    9 <= n <= 13 || 28 <= n <= 32 || n == 0x85 || n == 0xA0 || n == 0x1680 || 0x2000 <= n <= 0x200A
    || n == 0x2028 || n == 0x2029 || n == 0x202F || n == 0x205F || n == 0x3000
  }

  /** Empty, or nothing but white space. */
  predicate Blank(s: string)
  {
    forall i :: 0 <= i < |s| ==> Space(s[i])
  }

  /** The 29 characters `str.isspace` holds of. */
  const SPACES: seq<int> := [
    0x09, 0x0A, 0x0B, 0x0C, 0x0D, 0x1C, 0x1D, 0x1E, 0x1F, 0x20, 0x85, 0xA0, 0x1680, 0x2000, 0x2001, 0x2002, 0x2003,
    0x2004, 0x2005, 0x2006, 0x2007, 0x2008, 0x2009, 0x200A, 0x2028, 0x2029, 0x202F, 0x205F, 0x3000]

  lemma SpacesAre(c: char)
    ensures Space(c) <==> c as int in SPACES
  {
    var n := c as int;
    if 9 <= n <= 13 {
      assert SPACES[n - 9] == n;
    } else if 28 <= n <= 32 {
      assert SPACES[n - 28 + 5] == n;
    } else if 0x2000 <= n <= 0x200A {
      assert SPACES[n - 0x2000 + 13] == n;
    } else if Space(c) {
      assert SPACES[10] == 0x85 && SPACES[11] == 0xA0 && SPACES[12] == 0x1680 && SPACES[24] == 0x2028
             && SPACES[25] == 0x2029 && SPACES[26] == 0x202F && SPACES[27] == 0x205F && SPACES[28] == 0x3000;
    }
  }
}
