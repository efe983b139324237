/** Options, and ECMAScript strings as sequences of UTF-16 code units. */
module Options {
  datatype Option<+T> = None | Some(value: T) {
    function GetOr(default: T): T {
      if Some? then value else default
    }
  }
}

module JsText {
  import opened Options

  type Unit = u: int | 0 <= u < 0x10000
  type JsString = seq<Unit>

  /** The parts of the host that stay uninterpreted: SHA-256 in hexadecimal, and
      `toLowerCase` and `toUpperCase` of `String.prototype`. */
  datatype Host = Host(sha: JsString -> JsString, lower: JsString -> JsString, upper: JsString -> JsString)

  /** A literal of the source program; the characters used are all ASCII. */
  function Lit(s: string): JsString
  {
    seq(|s|, i requires 0 <= i < |s| => Code(s[i]))
  }

  function Code(c: char): Unit
  {
    if c as int < 0x10000 then c as int else 0xFFFD
  }

  /** WhiteSpace and LineTerminator of ECMA-262, which `String.prototype.trim` strips. */
  predicate IsSpace(u: Unit)
  {
    || 9 <= u <= 13 || u == 0x20 || u == 0xA0 || u == 0x1680 || 0x2000 <= u <= 0x200A
    || u == 0x2028 || u == 0x2029 || u == 0x202F || u == 0x205F || u == 0x3000 || u == 0xFEFF
  }

  function TrimStart(s: JsString): JsString
  {
    if s != [] && IsSpace(s[0]) then TrimStart(s[1..]) else s
  }

  function TrimEnd(s: JsString): JsString
  {
    if s != [] && IsSpace(s[|s| - 1]) then TrimEnd(s[..|s| - 1]) else s
  }

  function Trim(s: JsString): JsString
  {
    TrimEnd(TrimStart(s))
  }

  predicate Blank(s: JsString)
  {
    Trim(s) == []
  }

  lemma {:induction false} TrimEndKeepsStart(s: JsString)
    requires s != [] && !IsSpace(s[0])
    ensures TrimEnd(s) != [] && TrimEnd(s)[0] == s[0]
    ensures !IsSpace(TrimEnd(s)[|TrimEnd(s)| - 1])
  {
    if IsSpace(s[|s| - 1]) {
      TrimEndKeepsStart(s[..|s| - 1]);
    }
  }

  lemma {:induction false} TrimStartStrips(s: JsString)
    ensures TrimStart(s) == [] || !IsSpace(TrimStart(s)[0])
  {
    if s != [] && IsSpace(s[0]) {
      TrimStartStrips(s[1..]);
    }
  }

  lemma {:induction false} TrimIdempotent(s: JsString)
    ensures Trim(Trim(s)) == Trim(s)
  {
    TrimStartStrips(s);
    if TrimStart(s) != [] {
      TrimEndKeepsStart(TrimStart(s));
    }
  }

  /** The 25 code points ECMA-262 counts as white space or line terminators. */
  const SPACES: seq<Unit> := [
    0x09, 0x0A, 0x0B, 0x0C, 0x0D, 0x20, 0xA0, 0x1680, 0x2000, 0x2001, 0x2002, 0x2003, 0x2004, 0x2005, 0x2006,
    0x2007, 0x2008, 0x2009, 0x200A, 0x2028, 0x2029, 0x202F, 0x205F, 0x3000, 0xFEFF]

  lemma SpacesAre(u: Unit)
    ensures IsSpace(u) <==> u in SPACES
  {
    if 9 <= u <= 13 {
      assert SPACES[u - 9] == u;
    } else if 0x2000 <= u <= 0x200A {
      assert SPACES[u - 0x2000 + 8] == u;
    } else if IsSpace(u) {
      assert SPACES[5] == 0x20 && SPACES[6] == 0xA0 && SPACES[7] == 0x1680 && SPACES[19] == 0x2028
             && SPACES[20] == 0x2029 && SPACES[21] == 0x202F && SPACES[22] == 0x205F && SPACES[23] == 0x3000
             && SPACES[24] == 0xFEFF;
    }
  }

  lemma {:induction false} StartCut(s: JsString) returns (i: nat)
    ensures i <= |s| && TrimStart(s) == s[i..] && forall k :: 0 <= k < i ==> IsSpace(s[k])
  {
    if s != [] && IsSpace(s[0]) {
      i := StartCut(s[1..]);
      assert forall k :: 1 <= k < i + 1 ==> s[k] == s[1..][k - 1];
      i := i + 1;
    } else {
      i := 0;
    }
  }

  lemma {:induction false} EndCut(s: JsString) returns (j: nat)
    ensures j <= |s| && TrimEnd(s) == s[..j] && forall k :: j <= k < |s| ==> IsSpace(s[k])
    ensures j > 0 ==> !IsSpace(s[j - 1])
  {
    if s != [] && IsSpace(s[|s| - 1]) {
      j := EndCut(s[..|s| - 1]);
    } else {
      j := |s|;
    }
  }

  /** Trimming cuts white space off both ends, all of it, and nothing else. */
  lemma TrimCuts(s: JsString) returns (i: nat, j: nat)
    ensures i <= j <= |s| && Trim(s) == s[i..j]
    ensures forall k :: 0 <= k < i || j <= k < |s| ==> IsSpace(s[k])
    ensures i < j ==> !IsSpace(s[i]) && !IsSpace(s[j - 1])
  {
    i := StartCut(s);
    var t := TrimStart(s);
    j := EndCut(t);
    TrimStartStrips(s);
    assert forall k :: j <= k < |t| ==> t[k] == s[i + k];
    assert t[..j] == s[i..i + j];
    j := i + j;
  }
}
