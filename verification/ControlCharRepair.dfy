/** Escaping raw control characters inside the string literals of a JSON text that failed to parse. */
module ControlCharRepair {
  /** A Python character. */
  type Code = c: int | 0 <= c < 0x11_0000
  type Text = seq<Code>

  const QUOTE: Code := 0x22
  const BACKSLASH: Code := 0x5C

  /** The two flags of the scanner. */
  datatype Scanner = Scanner(inString: bool, escaped: bool)

  const Start := Scanner(false, false)

  predicate Control(c: Code)
  {
    c < 0x20
  }

  function Advance(s: Scanner, c: Code): Scanner
  {
    if !s.inString then Scanner(c == QUOTE, s.escaped)
    else if s.escaped then Scanner(true, false)
    else if c == BACKSLASH then Scanner(true, true)
    else Scanner(c != QUOTE, false)
  }

  function HexDigit(n: int): Code
    requires 0 <= n < 16
  {
    if n < 10 then 0x30 + n else 0x61 + (n - 10)
  }

  /** The short escape of a control character, or its four-digit one. */
  function Escape(c: Code): Text
    requires Control(c)
  {
    if c == 8 then [BACKSLASH, 0x62]
    else if c == 9 then [BACKSLASH, 0x74]
    else if c == 10 then [BACKSLASH, 0x6E]
    else if c == 12 then [BACKSLASH, 0x66]
    else if c == 13 then [BACKSLASH, 0x72]
    else [BACKSLASH, 0x75, 0x30, 0x30, HexDigit(c / 16), HexDigit(c % 16)]
  }

  /** A raw control character where the scanner escapes it. */
  predicate Offends(s: Scanner, c: Code)
  {
    s.inString && !s.escaped && Control(c)
  }

  function Emit(s: Scanner, c: Code): Text
  {
    if Offends(s, c) then Escape(c) else [c]
  }

  function RepairFrom(s: Scanner, t: Text): Text
    decreases |t|
  {
    if t == [] then [] else Emit(s, t[0]) + RepairFrom(Advance(s, t[0]), t[1..])
  }

  function Repair(t: Text): Text
  {
    RepairFrom(Start, t)
  }

  function Scan(s: Scanner, t: Text): Scanner
    decreases |t|
  {
    if t == [] then s else Scan(Advance(s, t[0]), t[1..])
  }

  lemma {:induction false} RepairAppend(s: Scanner, t: Text, u: Text)
    ensures RepairFrom(s, t + u) == RepairFrom(s, t) + RepairFrom(Scan(s, t), u)
    ensures Scan(s, t + u) == Scan(Scan(s, t), u)
    decreases |t|
  {
    if t == [] {
      assert t + u == u;
    } else {
      assert (t + u)[1..] == t[1..] + u;
      RepairAppend(Advance(s, t[0]), t[1..], u);
    }
  }

  /** The loop of the source: four variables, one pass. */
  method EscapeRawControlChars(text: Text) returns (out: Text)
    ensures out == Repair(text)
  {
    out := [];
    var inString, escaped, changed := false, false, false;
    for i := 0 to |text|
      invariant out == Repair(text[..i])
      invariant Scanner(inString, escaped) == Scan(Start, text[..i])
      invariant !changed ==> out == text[..i]
    {
      var ch := text[i];
      assert text[..i + 1] == text[..i] + [ch];
      RepairAppend(Start, text[..i], [ch]);
      RepairOne(Scanner(inString, escaped), ch);
      if !inString {
        out := out + [ch];
        if ch == QUOTE {
          inString := true;
        }
      } else if escaped {
        out := out + [ch];
        escaped := false;
      } else if ch == BACKSLASH {
        out := out + [ch];
        escaped := true;
      } else if ch == QUOTE {
        out := out + [ch];
        inString := false;
      } else if ch < 0x20 {
        out := out + Escape(ch);
        changed := true;
      } else {
        out := out + [ch];
      }
    }
    assert text[..|text|] == text;
    if !changed {
      out := text;
    }
  }

  lemma RepairOne(s: Scanner, c: Code)
    ensures RepairFrom(s, [c]) == Emit(s, c) && Scan(s, [c]) == Advance(s, c)
  {
    assert [c][1..] == [];
    assert Emit(s, c) + [] == Emit(s, c);
  }

  // ---- Reading a JSON text ----

  /** What a reader makes of a text, piece by piece: text outside strings, the two ends of a string,
      and the values inside it. An escaped surrogate is kept apart: whether it pairs up is decided
      by its neighbours, which are pieces too. */
  datatype Piece = Outer(c: Code) | Open | Close | Value(c: Code) | Half(c: Code)

  datatype Reader = Outside | Inside | AfterBackslash | InHex(digits: nat, value: int) | Failed

  function HexValue(c: Code): int
  {
    if 0x30 <= c <= 0x39 then c - 0x30
    else if 0x61 <= c <= 0x66 then c - 0x61 + 10
    else if 0x41 <= c <= 0x46 then c - 0x41 + 10
    else -1
  }

  function ShortEscape(c: Code): int
  {
    if c == QUOTE || c == BACKSLASH || c == 0x2F then c
    else if c == 0x62 then 8
    else if c == 0x66 then 12
    else if c == 0x6E then 10
    else if c == 0x72 then 13
    else if c == 0x74 then 9
    else -1
  }

  function ValuePiece(v: int): Piece
    requires 0 <= v < 0x1_0000
  {
    if 0xD800 <= v < 0xE000 then Half(v) else Value(v)
  }

  predicate ReaderOk(r: Reader)
  {
    r.InHex? ==> r.digits < 4 && 0 <= r.value && (r.digits == 0 ==> r.value == 0) && (r.digits == 1 ==> r.value < 0x10)
                 && (r.digits == 2 ==> r.value < 0x100) && (r.digits == 3 ==> r.value < 0x1000)
  }

  /** One character, read by the string grammar of section 7 of RFC 8259. A lenient reader differs from
      a strict one only in taking a raw control character inside a string for itself. */
  function Read(strict: bool, r: Reader, c: Code): (next: (Reader, seq<Piece>))
    requires ReaderOk(r)
    ensures ReaderOk(next.0)
  {
    match r
    case Outside => if c == QUOTE then (Inside, [Open]) else (Outside, [Outer(c)])
    case Inside =>
      if c == QUOTE then (Outside, [Close])
      else if c == BACKSLASH then (AfterBackslash, [])
      else if strict && Control(c) then (Failed, [])
      else (Inside, [Value(c)])
    case AfterBackslash =>
      if c == 0x75 then (InHex(0, 0), [])
      else if ShortEscape(c) >= 0 then (Inside, [Value(ShortEscape(c))])
      else (Failed, [])
    case InHex(digits, value) =>
      if HexValue(c) < 0 then (Failed, [])
      else if digits == 3 then (Inside, [ValuePiece(16 * value + HexValue(c))])
      else (InHex(digits + 1, 16 * value + HexValue(c)), [])
    case Failed => (Failed, [])
  }

  function Decode(strict: bool, r: Reader, t: Text): (end: (Reader, seq<Piece>))
    requires ReaderOk(r)
    ensures ReaderOk(end.0)
    decreases |t|
  {
    if t == [] then (r, [])
    else
      var (next, pieces) := Read(strict, r, t[0]);
      var (end, more) := Decode(strict, next, t[1..]);
      (end, pieces + more)
  }
}

module ControlCharProofs {
  import opened ControlCharRepair

  lemma {:induction false} DecodeAppend(strict: bool, r: Reader, t: Text, u: Text)
    requires ReaderOk(r)
    ensures Decode(strict, r, t + u).0 == Decode(strict, Decode(strict, r, t).0, u).0
    ensures Decode(strict, r, t + u).1 == Decode(strict, r, t).1 + Decode(strict, Decode(strict, r, t).0, u).1
    decreases |t|
  {
    if t == [] {
      assert t + u == u;
    } else {
      assert (t + u)[1..] == t[1..] + u && (t + u)[0] == t[0];
      var (next, pieces) := Read(strict, r, t[0]);
      DecodeAppend(strict, next, t[1..], u);
      DecodeStep(strict, r, t + u);
      DecodeStep(strict, r, t);
      var more := Decode(strict, next, t[1..]).1;
      var last := Decode(strict, Decode(strict, r, t).0, u).1;
      assert pieces + (more + last) == (pieces + more) + last;
    }
  }

  lemma DecodeStep(strict: bool, r: Reader, t: Text)
    requires t != [] && ReaderOk(r)
    ensures var (next, pieces) := Read(strict, r, t[0]);
            Decode(strict, r, t).0 == Decode(strict, next, t[1..]).0
            && Decode(strict, r, t).1 == pieces + Decode(strict, next, t[1..]).1
  {
  }

  /** The reader's view of the scanner's two flags; the scanner does not notice hex digits or failure. */
  predicate Agree(s: Scanner, r: Reader)
  {
    match r
    case Outside => !s.inString && !s.escaped
    case Inside => s.inString && !s.escaped
    case AfterBackslash => s.inString && s.escaped
    case InHex(_, _) => s.inString && !s.escaped
    case Failed => true
  }

  lemma DecodeOne(strict: bool, r: Reader, c: Code)
    requires ReaderOk(r)
    ensures Decode(strict, r, [c]) == Read(strict, r, c)
  {
    assert [c][1..] == [];
    var (next, pieces) := Read(strict, r, c);
    assert Decode(strict, next, []) == (next, []);
    assert pieces + [] == pieces;
  }

  /** The five control characters with a short escape get it, every other one four digits in lower case. */
  lemma EscapeForms(c: Code)
    requires Control(c)
    ensures var e := Escape(c);
            && e[0] == BACKSLASH
            && (|e| == 2 <==> c == 8 || c == 9 || c == 10 || c == 12 || c == 13)
            && (|e| == 2 || (|e| == 6 && e[1] == 0x75 && forall i :: 2 <= i < 6 ==>
                                  0x30 <= e[i] <= 0x39 || 0x61 <= e[i] <= 0x66))
  {
  }

  /** A character that only moves the reader on. */
  lemma SilentHead(strict: bool, r: Reader, next: Reader, t: Text)
    requires |t| > 0 && ReaderOk(r) && ReaderOk(next) && Read(strict, r, t[0]) == (next, [])
    ensures Decode(strict, r, t) == Decode(strict, next, t[1..])
  {
    var (end, more) := Decode(strict, next, t[1..]);
    assert [] + more == more;
  }

  lemma {:induction false} FailedStays(strict: bool, t: Text)
    ensures Decode(strict, Failed, t) == (Failed, [])
    decreases |t|
  {
    if t != [] {
      FailedStays(strict, t[1..]);
      SilentHead(strict, Failed, Failed, t);
    }
  }

  /** An escape, read strictly inside a string, is the character it stands for; anywhere else in a
      string both it and the raw character fail. */
  lemma EscapeReads(r: Reader, c: Code)
    requires ReaderOk(r) && Control(c) && (r == Inside || r.InHex? || r == Failed)
    ensures Decode(true, r, Escape(c)) == Read(false, r, c)
  {
    var e := Escape(c);
    if r != Inside {
      SilentHead(true, r, Failed, e);
      FailedStays(true, e[1..]);
    } else {
      SilentHead(true, Inside, AfterBackslash, e);
      if |e| == 2 {
        ShortReads(c);
      } else {
        LongReads(c);
      }
    }
  }

  lemma ShortReads(c: Code)
    requires Control(c) && |Escape(c)| == 2
    ensures Decode(true, AfterBackslash, Escape(c)[1..]) == (Inside, [Value(c)])
  {
    assert Escape(c)[1..] == [Escape(c)[1]];
    DecodeOne(true, AfterBackslash, Escape(c)[1]);
  }

  lemma LongReads(c: Code)
    requires Control(c) && |Escape(c)| != 2
    ensures Decode(true, AfterBackslash, Escape(c)[1..]) == (Inside, [Value(c)])
  {
    var t := LongTail(c);
    HexReads(t, c / 16, c % 16);
  }

  lemma LongTail(c: Code) returns (t: Text)
    requires Control(c) && |Escape(c)| != 2
    ensures t == Escape(c)[1..] && |t| == 5 && t[0] == 0x75 && t[1] == 0x30 && t[2] == 0x30
    ensures HexValue(t[3]) == c / 16 && HexValue(t[4]) == c % 16
    ensures 0 <= c / 16 < 2 && 0 <= c % 16 < 16 && 16 * (c / 16) + c % 16 == c
  {
    HexDigitValue(c / 16);
    HexDigitValue(c % 16);
    t := [0x75, 0x30, 0x30, HexDigit(c / 16), HexDigit(c % 16)];
    assert Escape(c) == [BACKSLASH] + t;
  }

  lemma HexReads(t: Text, high: int, low: int)
    requires |t| == 5 && t[0] == 0x75 && t[1] == 0x30 && t[2] == 0x30 && HexValue(t[3]) == high && HexValue(t[4]) == low
    requires 0 <= high < 2 && 0 <= low < 16
    ensures Decode(true, AfterBackslash, t) == (Inside, [Value(16 * high + low)])
  {
    SilentHead(true, AfterBackslash, InHex(0, 0), t);
    HexFour(t[1..], high, low);
  }

  lemma HexFour(t: Text, high: int, low: int)
    requires |t| == 4 && t[0] == 0x30 && t[1] == 0x30 && HexValue(t[2]) == high && HexValue(t[3]) == low
    requires 0 <= high < 2 && 0 <= low < 16
    ensures Decode(true, InHex(0, 0), t) == (Inside, [Value(16 * high + low)])
  {
    ZeroRead(0, t[0]);
    SilentHead(true, InHex(0, 0), InHex(1, 0), t);
    HexTail(t[1..], high, low);
  }

  lemma ZeroRead(digits: nat, c: Code)
    requires digits < 3 && c == 0x30
    ensures Read(true, InHex(digits, 0), c) == (InHex(digits + 1, 0), [])
  {
  }

  lemma HexTail(t: Text, high: int, low: int)
    requires |t| == 3 && t[0] == 0x30 && HexValue(t[1]) == high && HexValue(t[2]) == low
    requires 0 <= high < 2 && 0 <= low < 16
    ensures Decode(true, InHex(1, 0), t) == (Inside, [Value(16 * high + low)])
  {
    SilentHead(true, InHex(1, 0), InHex(2, 0), t);
    var u := t[1..];
    SilentHead(true, InHex(2, 0), InHex(3, high), u);
    assert u[1..] == [t[2]];
    DecodeOne(true, InHex(3, high), t[2]);
  }

  lemma HexDigitValue(n: int)
    requires 0 <= n < 16
    ensures HexValue(HexDigit(n)) == n
  {
  }

  lemma OneStep(s: Scanner, r: Reader, c: Code)
    requires ReaderOk(r) && Agree(s, r)
    ensures Decode(true, r, Emit(s, c)) == Read(false, r, c)
    ensures Agree(Advance(s, c), Read(false, r, c).0)
  {
    if Offends(s, c) {
      EscapeReads(r, c);
    } else {
      DecodeOne(true, r, c);
    }
  }

  lemma {:induction false} MeaningFrom(s: Scanner, r: Reader, t: Text)
    requires ReaderOk(r) && Agree(s, r)
    ensures Decode(true, r, RepairFrom(s, t)) == Decode(false, r, t)
    decreases |t|
  {
    if t != [] {
      OneStep(s, r, t[0]);
      MeaningFrom(Advance(s, t[0]), Read(false, r, t[0]).0, t[1..]);
      DecodeAppend(true, r, Emit(s, t[0]), RepairFrom(Advance(s, t[0]), t[1..]));
    }
  }

  /** Repair keeps the meaning of every text: a strict reader of the repaired text reads what a lenient
      reader reads in the original, piece by piece, and fails on exactly the same texts. */
  lemma RepairKeepsMeaning(t: Text)
    ensures Decode(true, Outside, Repair(t)) == Decode(false, Outside, t)
  {
    MeaningFrom(Start, Outside, t);
  }

  // ---- Where control characters remain ----

  /** Some control character inside a string. */
  predicate HasControl(s: Scanner, t: Text)
    decreases |t|
  {
    t != [] && ((s.inString && Control(t[0])) || HasControl(Advance(s, t[0]), t[1..]))
  }

  /** Some control character inside a string directly after an escaping backslash. */
  predicate HasEscapedControl(s: Scanner, t: Text)
    decreases |t|
  {
    t != [] && ((s.inString && s.escaped && Control(t[0])) || HasEscapedControl(Advance(s, t[0]), t[1..]))
  }

  /** Some control character the scanner escapes. */
  predicate HasOffence(s: Scanner, t: Text)
    decreases |t|
  {
    t != [] && (Offends(s, t[0]) || HasOffence(Advance(s, t[0]), t[1..]))
  }

  lemma {:induction false} ControlAppend(s: Scanner, t: Text, u: Text)
    ensures HasControl(s, t + u) <==> HasControl(s, t) || HasControl(Scan(s, t), u)
    ensures HasOffence(s, t + u) <==> HasOffence(s, t) || HasOffence(Scan(s, t), u)
    decreases |t|
  {
    if t == [] {
      assert t + u == u;
    } else {
      assert (t + u)[1..] == t[1..] + u;
      ControlAppend(Advance(s, t[0]), t[1..], u);
    }
  }

  /** What is emitted for one character leaves the scanner where that character does, holds a control
      character in a string only after a backslash, and nothing the scanner would escape. */
  lemma EmitScans(s: Scanner, c: Code)
    ensures Scan(s, Emit(s, c)) == Advance(s, c)
    ensures HasControl(s, Emit(s, c)) <==> s.inString && s.escaped && Control(c)
    ensures !HasOffence(s, Emit(s, c))
  {
    var e := Emit(s, c);
    if Offends(s, c) {
      var rest := e[2..];
      assert e == [e[0]] + ([e[1]] + rest);
      ControlAppend(s, [e[0]], [e[1]] + rest);
      RepairAppend(s, [e[0]], [e[1]] + rest);
      RepairOne(s, e[0]);
      ControlAppend(Scanner(true, true), [e[1]], rest);
      RepairAppend(Scanner(true, true), [e[1]], rest);
      RepairOne(Scanner(true, true), e[1]);
      PlainScans(rest);
    } else {
      RepairOne(s, c);
      assert [c][1..] == [];
    }
  }

  lemma {:induction false} PlainScans(t: Text)
    requires forall i :: 0 <= i < |t| ==> t[i] >= 0x20 && t[i] != QUOTE && t[i] != BACKSLASH
    ensures Scan(Scanner(true, false), t) == Scanner(true, false)
    ensures !HasControl(Scanner(true, false), t) && !HasOffence(Scanner(true, false), t)
    decreases |t|
  {
    if t != [] {
      PlainScans(t[1..]);
    }
  }

  lemma {:induction false} CleanFrom(s: Scanner, t: Text)
    ensures HasControl(s, RepairFrom(s, t)) <==> HasEscapedControl(s, t)
    ensures !HasOffence(s, RepairFrom(s, t))
    ensures Scan(s, RepairFrom(s, t)) == Scan(s, t)
    decreases |t|
  {
    if t != [] {
      var rest := RepairFrom(Advance(s, t[0]), t[1..]);
      CleanFrom(Advance(s, t[0]), t[1..]);
      EmitScans(s, t[0]);
      ControlAppend(s, Emit(s, t[0]), rest);
      RepairAppend(s, Emit(s, t[0]), rest);
    }
  }

  /** The repaired text has a control character inside a string exactly when the original has one
      directly after a backslash. */
  lemma CleanIff(t: Text)
    ensures HasControl(Start, Repair(t)) <==> HasEscapedControl(Start, t)
  {
    CleanFrom(Start, t);
  }

  /** A quote, a backslash, a raw newline and a quote: the newline is in the string, directly after the
      backslash, and the repair copies it. */
  lemma ControlCanRemain()
    ensures var t: Text := [QUOTE, BACKSLASH, 10, QUOTE];
            Repair(t) == t && HasControl(Start, Repair(t)) && Decode(false, Outside, t).0 == Failed
  {
    var t: Text := [QUOTE, BACKSLASH, 10, QUOTE];
    var inside, escaped, last: Text := t[1..], t[1..][1..], t[1..][1..][1..];
    assert inside == [BACKSLASH, 10, QUOTE] && escaped == [10, QUOTE] && last == [QUOTE] && last[1..] == [];
    assert !HasOffence(Scanner(true, false), last);
    assert HasControl(Scanner(true, true), escaped) && !HasOffence(Scanner(true, true), escaped);
    assert HasControl(Scanner(true, false), inside) && !HasOffence(Scanner(true, false), inside);
    UnchangedFrom(Start, t);
    FailedStays(false, last);
    SilentHead(false, AfterBackslash, Failed, escaped);
    SilentHead(false, Inside, AfterBackslash, inside);
    var (next, pieces) := Read(false, Outside, t[0]);
    assert Decode(false, Outside, t).0 == Decode(false, next, inside).0;
  }

  lemma {:induction false} UnchangedFrom(s: Scanner, t: Text)
    ensures RepairFrom(s, t) == t <==> !HasOffence(s, t)
    ensures |RepairFrom(s, t)| >= |t|
    ensures HasOffence(s, t) ==> |RepairFrom(s, t)| > |t|
    decreases |t|
  {
    if t != [] {
      UnchangedFrom(Advance(s, t[0]), t[1..]);
    }
  }

  /** Repair changes a text exactly when the scanner has something to escape in it. */
  lemma UnchangedIff(t: Text)
    ensures Repair(t) == t <==> !HasOffence(Start, t)
  {
    UnchangedFrom(Start, t);
  }

  lemma RepairIdempotent(t: Text)
    ensures Repair(Repair(t)) == Repair(t)
  {
    CleanFrom(Start, t);
    UnchangedFrom(Start, Repair(t));
  }

  /** At every position of the text the scanner of the output is where the scanner of the input is. */
  lemma ScannerInStep(t: Text, n: nat)
    requires n <= |t|
    ensures var done := Repair(t[..n]);
            && |done| <= |Repair(t)| && Repair(t)[..|done|] == done
            && Scan(Start, done) == Scan(Start, t[..n])
  {
    assert t == t[..n] + t[n..];
    RepairAppend(Start, t[..n], t[n..]);
    CleanFrom(Start, t[..n]);
  }

  /** The text outside strings, with the quotes that bound them. */
  function OuterText(s: Scanner, t: Text): Text
    decreases |t|
  {
    if t == [] then []
    else (if s.inString && Advance(s, t[0]).inString then [] else [t[0]]) + OuterText(Advance(s, t[0]), t[1..])
  }

  lemma {:induction false} OuterAppend(s: Scanner, t: Text, u: Text)
    ensures OuterText(s, t + u) == OuterText(s, t) + OuterText(Scan(s, t), u)
    decreases |t|
  {
    if t == [] {
      assert t + u == u;
    } else {
      assert (t + u)[1..] == t[1..] + u;
      OuterAppend(Advance(s, t[0]), t[1..], u);
    }
  }

  lemma EmitOuter(s: Scanner, c: Code)
    ensures OuterText(s, Emit(s, c)) == OuterText(s, [c])
  {
    var e := Emit(s, c);
    if Offends(s, c) {
      assert [c][1..] == [];
      assert e[1..][0] == e[1];
      if |e| == 6 {
        assert e[1..][1..] == [0x30, 0x30, HexDigit(c / 16), HexDigit(c % 16)];
        PlainOuter([0x30, 0x30, HexDigit(c / 16), HexDigit(c % 16)]);
      } else {
        assert e[1..][1..] == [];
      }
    }
  }

  lemma {:induction false} PlainOuter(t: Text)
    requires forall i :: 0 <= i < |t| ==> t[i] >= 0x20 && t[i] != QUOTE && t[i] != BACKSLASH
    ensures OuterText(Scanner(true, false), t) == []
    decreases |t|
  {
    if t != [] {
      PlainOuter(t[1..]);
    }
  }

  /** Text outside strings is left alone, for every text and from every state. */
  lemma {:induction false} OuterTextKept(s: Scanner, t: Text)
    ensures OuterText(s, RepairFrom(s, t)) == OuterText(s, t)
    decreases |t|
  {
    if t != [] {
      OuterTextKept(Advance(s, t[0]), t[1..]);
      EmitOuter(s, t[0]);
      EmitScans(s, t[0]);
      OuterAppend(s, Emit(s, t[0]), RepairFrom(Advance(s, t[0]), t[1..]));
      OuterAppend(s, [t[0]], t[1..]);
      RepairOne(s, t[0]);
      assert [t[0]] + t[1..] == t;
    }
  }

  lemma {:induction false} StrictFrom(s: Scanner, r: Reader, t: Text)
    requires ReaderOk(r) && Agree(s, r) && Decode(true, r, t).0 != Failed
    ensures !HasOffence(s, t)
    decreases |t|
  {
    if t != [] {
      var next := Read(true, r, t[0]).0;
      if next == Failed {
        FailedStays(true, t[1..]);
      }
      StrictFrom(Advance(s, t[0]), next, t[1..]);
    }
  }

  /** A text a strict reader accepts is never altered: the repair only ever acts on a text that failed. */
  lemma StrictTextUntouched(t: Text)
    requires Decode(true, Outside, t).0 != Failed
    ensures Repair(t) == t
  {
    StrictFrom(Start, Outside, t);
    UnchangedIff(t);
  }
}
