/** The base64 encoding of section 4 of RFC 4648. */
module Base64 {
  import opened Options

  type Byte = b: int | 0 <= b < 256
  type Bytes = seq<Byte>

  const PAD := '='

  function Symbol(n: int): char
    requires 0 <= n < 64
  {
    if n < 26 then 'A' + n as char
    else if n < 52 then 'a' + (n - 26) as char
    else if n < 62 then '0' + (n - 52) as char
    else if n == 62 then '+'
    else '/'
  }

  function ValueOf(c: char): int
  {
    if 'A' <= c <= 'Z' then c as int - 'A' as int
    else if 'a' <= c <= 'z' then c as int - 'a' as int + 26
    else if '0' <= c <= '9' then c as int - '0' as int + 52
    else if c == '+' then 62
    else if c == '/' then 63
    else -1
  }

  /** Groups of three bytes become four symbols; a last group of one or two bytes is padded. */
  function Encode(s: Bytes): string
  {
    if s == [] then []
    else if |s| == 1 then LastOne(s[0])
    else if |s| == 2 then LastTwo(s[0], s[1])
    else Group(s[0], s[1], s[2]) + Encode(s[3..])
  }

  function Group(a: Byte, b: Byte, c: Byte): (g: string)
    ensures |g| == 4
  {
    [Symbol(a / 4), Symbol(a % 4 * 16 + b / 16), Symbol(b % 16 * 4 + c / 64), Symbol(c % 64)]
  }

  function LastTwo(a: Byte, b: Byte): (g: string)
    ensures |g| == 4
  {
    [Symbol(a / 4), Symbol(a % 4 * 16 + b / 16), Symbol(b % 16 * 4), PAD]
  }

  function LastOne(a: Byte): (g: string)
    ensures |g| == 4
  {
    [Symbol(a / 4), Symbol(a % 4 * 16), PAD, PAD]
  }

  /** The bytes of one group of four; padding is only allowed at the end of the last group. */
  function DecodeGroup(w: char, x: char, y: char, z: char, last: bool): Option<Bytes>
  {
    var p, q, r, s := ValueOf(w), ValueOf(x), ValueOf(y), ValueOf(z);
    if p < 0 || q < 0 then None
    else if y == PAD && z == PAD && last then Some([p * 4 + q / 16])
    else if r < 0 then None
    else if z == PAD && last then Some([p * 4 + q / 16, q % 16 * 16 + r / 4])
    else if s < 0 then None
    else Some([p * 4 + q / 16, q % 16 * 16 + r / 4, r % 4 * 64 + s])
  }

  function Decode(t: string): Option<Bytes>
  {
    if t == [] then Some([])
    else if |t| < 4 then None
    else
      var head := DecodeGroup(t[0], t[1], t[2], t[3], |t| == 4);
      var tail := Decode(t[4..]);
      if head.None? || tail.None? then None else Some(head.value + tail.value)
  }

  /** Table 1 of RFC 4648: three runs of consecutive characters, and two more. */
  lemma SymbolRuns(n: int)
    requires 0 < n < 64
    ensures Symbol(0) == 'A' && Symbol(25) == 'Z' && Symbol(26) == 'a' && Symbol(51) == 'z'
    ensures Symbol(52) == '0' && Symbol(61) == '9' && Symbol(62) == '+' && Symbol(63) == '/'
    ensures n != 26 && n != 52 && n < 62 ==> Symbol(n) as int == Symbol(n - 1) as int + 1
  {
  }

  /** The value of four symbols, six bits each, the first one highest. */
  function Word(g: string): int
    requires |g| == 4
  {
    ValueOf(g[0]) * 0x4_0000 + ValueOf(g[1]) * 0x1000 + ValueOf(g[2]) * 0x40 + ValueOf(g[3])
  }

  /** A group spells the 24 bits of its bytes, the first byte highest; a short group is filled with zero
      bits, and says with its padding how many bytes there are. */
  lemma GroupSpells(a: Byte, b: Byte, c: Byte)
    ensures Word(Group(a, b, c)) == a * 0x1_0000 + b * 0x100 + c
    ensures LastTwo(a, b) == Group(a, b, 0)[..3] + "=" && LastOne(a) == Group(a, 0, 0)[..2] + "=="
  {
    SymbolValue(a / 4);
    SymbolValue(a % 4 * 16 + b / 16);
    SymbolValue(b % 16 * 4 + c / 64);
    SymbolValue(c % 64);
  }

  lemma SymbolValue(n: int)
    requires 0 <= n < 64
    ensures ValueOf(Symbol(n)) == n && Symbol(n) != PAD
  {
  }

  lemma GroupDecodes(a: Byte, b: Byte, c: Byte, last: bool)
    ensures var g := Group(a, b, c); DecodeGroup(g[0], g[1], g[2], g[3], last) == Some([a, b, c])
  {
    SymbolValue(a / 4);
    SymbolValue(a % 4 * 16 + b / 16);
    SymbolValue(b % 16 * 4 + c / 64);
    SymbolValue(c % 64);
    SixBits(a, b, c);
  }

  /** Four groups of six bits give the three bytes back. */
  lemma SixBits(a: Byte, b: Byte, c: Byte)
    ensures a / 4 * 4 + (a % 4 * 16 + b / 16) / 16 == a
    ensures (a % 4 * 16 + b / 16) % 16 * 16 + (b % 16 * 4 + c / 64) / 4 == b
    ensures (b % 16 * 4 + c / 64) % 4 * 64 + c % 64 == c
  {
  }

  lemma LastTwoDecodes(a: Byte, b: Byte)
    ensures var g := LastTwo(a, b); DecodeGroup(g[0], g[1], g[2], g[3], true) == Some([a, b])
  {
    SymbolValue(a / 4);
    SymbolValue(a % 4 * 16 + b / 16);
    SymbolValue(b % 16 * 4);
  }

  lemma LastOneDecodes(a: Byte)
    ensures var g := LastOne(a); DecodeGroup(g[0], g[1], g[2], g[3], true) == Some([a])
  {
    SymbolValue(a / 4);
    SymbolValue(a % 4 * 16);
  }

  /** One group and then the rest. */
  lemma DecodeStep(g: string, rest: string, head: Bytes, tail: Bytes)
    requires |g| == 4 && DecodeGroup(g[0], g[1], g[2], g[3], rest == []) == Some(head) && Decode(rest) == Some(tail)
    ensures Decode(g + rest) == Some(head + tail)
  {
    assert (g + rest)[4..] == rest;
  }

  lemma DecodeLast(g: string, bytes: Bytes)
    requires |g| == 4 && DecodeGroup(g[0], g[1], g[2], g[3], true) == Some(bytes)
    ensures Decode(g) == Some(bytes)
  {
    DecodeStep(g, [], bytes, []);
    assert g + [] == g && bytes + [] == bytes;
  }

  lemma OneDecodes(a: Byte)
    ensures Decode(LastOne(a)) == Some([a])
  {
    LastOneDecodes(a);
    DecodeLast(LastOne(a), [a]);
  }

  lemma TwoDecodes(a: Byte, b: Byte)
    ensures Decode(LastTwo(a, b)) == Some([a, b])
  {
    LastTwoDecodes(a, b);
    DecodeLast(LastTwo(a, b), [a, b]);
  }

  lemma EncodeGroup(a: Byte, b: Byte, c: Byte, rest: Bytes)
    ensures Encode([a, b, c] + rest) == Group(a, b, c) + Encode(rest)
  {
    assert ([a, b, c] + rest)[3..] == rest;
  }

  lemma GroupStep(a: Byte, b: Byte, c: Byte, rest: Bytes)
    requires Decode(Encode(rest)) == Some(rest)
    ensures Decode(Encode([a, b, c] + rest)) == Some([a, b, c] + rest)
  {
    EncodeGroup(a, b, c, rest);
    GroupDecodes(a, b, c, Encode(rest) == []);
    DecodeStep(Group(a, b, c), Encode(rest), [a, b, c], rest);
  }

  /** Decoding undoes encoding, for every byte string. */
  lemma {:induction false} DecodeEncode(s: Bytes)
    ensures Decode(Encode(s)) == Some(s)
  {
    if |s| == 1 {
      OneDecodes(s[0]);
      assert s == [s[0]];
    } else if |s| == 2 {
      TwoDecodes(s[0], s[1]);
      assert s == [s[0], s[1]];
    } else if s != [] {
      var rest := s[3..];
      DecodeEncode(rest);
      GroupStep(s[0], s[1], s[2], rest);
      assert s == [s[0], s[1], s[2]] + rest;
    }
  }

  lemma {:induction false} EncodeLength(s: Bytes)
    ensures |Encode(s)| == (|s| + 2) / 3 * 4
  {
    if |s| > 2 {
      EncodeLength(s[3..]);
    }
  }

  lemma CutStep(a: Byte, b: Byte, c: Byte, rest: Bytes, tail: Bytes)
    requires Encode(rest + tail) == Encode(rest) + Encode(tail)
    ensures Encode([a, b, c] + rest + tail) == Encode([a, b, c] + rest) + Encode(tail)
  {
    assert [a, b, c] + rest + tail == [a, b, c] + (rest + tail);
    EncodeGroup(a, b, c, rest);
    EncodeGroup(a, b, c, rest + tail);
    Reassociate(Group(a, b, c), Encode(rest), Encode(tail));
  }

  lemma Reassociate(g: string, x: string, y: string)
    ensures g + (x + y) == (g + x) + y
  {
  }

  /** Cutting the bytes at a multiple of three cuts the encoding at the same multiple of four. */
  lemma {:induction false} EncodeCut(head: Bytes, tail: Bytes)
    requires |head| % 3 == 0
    ensures Encode(head + tail) == Encode(head) + Encode(tail)
    decreases |head|
  {
    if head == [] {
      assert head + tail == tail;
    } else {
      EncodeCut(head[3..], tail);
      CutStep(head[0], head[1], head[2], head[3..], tail);
      assert head == [head[0], head[1], head[2]] + head[3..];
    }
  }
}

/** The shell scripts that carry a file mutation into the sandbox, run on a flat file system. */
module MutationScripts {
  import opened Options
  import opened Base64

  type Path = string

  /** A directory or a link is not a regular file. */
  datatype Node = File(content: Bytes) | NotFile

  type Files = map<Path, Node>

  datatype Action = Create(content: Bytes) | Modify(content: Bytes) | Delete

  /** The commands the scripts consist of, with the exit code of a failed test. */
  datatype Command =
    | FailIfExists(path: Path, code: int)
    | FailUnlessExists(path: Path, code: int)
    | FailUnlessFile(path: Path, code: int)
    | Remove(path: Path)
    | Truncate(path: Path)
    | DecodeInto(text: string, path: Path)
    | DecodeOnto(text: string, path: Path)

  type Script = seq<Command>

  const CHUNK := 7680
  const SINGLE := 8000

  predicate IsFile(files: Files, path: Path)
  {
    path in files && files[path].File?
  }

  /** One command: the new file system and the exit code. Text that is not base64 fails with code 1. */
  function Exec(files: Files, c: Command): (Files, int)
  {
    match c
    case FailIfExists(path, code) => (files, if path in files then code else 0)
    case FailUnlessExists(path, code) => (files, if path in files then 0 else code)
    case FailUnlessFile(path, code) => (files, if IsFile(files, path) then 0 else code)
    case Remove(path) => (files - {path}, 0)
    case Truncate(path) => (files[path := File([])], 0)
    case DecodeInto(text, path) =>
      (match Decode(text)
       case Some(bytes) => (files[path := File(bytes)], 0)
       case None => (files[path := File([])], 1))
    case DecodeOnto(text, path) =>
      (match Decode(text)
       case Some(bytes) =>
         (files[path := File((if IsFile(files, path) then files[path].content else []) + bytes)], 0)
       case None => (files, 1))
  }

  /** `set -e`: a script stops at the first command that fails. */
  function RunScript(files: Files, script: Script): (Files, int)
    decreases |script|
  {
    if script == [] then (files, 0)
    else
      var (after, code) := Exec(files, script[0]);
      if code != 0 then (after, code) else RunScript(after, script[1..])
  }

  /** The executor stops at the first script that fails. */
  function RunScripts(files: Files, scripts: seq<Script>): (Files, int)
    decreases |scripts|
  {
    if scripts == [] then (files, 0)
    else
      var (after, code) := RunScript(files, scripts[0]);
      if code != 0 then (after, code) else RunScripts(after, scripts[1..])
  }

  // ---- build_file_mutation_scripts ----

  function Precondition(path: Path, a: Action): Command
  {
    match a
    case Create(_) => FailIfExists(path, 101)
    case Modify(_) => FailUnlessFile(path, 102)
    case Delete => FailUnlessExists(path, 103)
  }

  function DeleteScript(path: Path): Script
  {
    [Precondition(path, Delete), Remove(path), FailIfExists(path, 105)]
  }

  function Write(path: Path, text: string): Command
  {
    if text == [] then Truncate(path) else DecodeInto(text, path)
  }

  function SingleScript(path: Path, a: Action, text: string): Script
  {
    [Precondition(path, a), Write(path, text), FailUnlessFile(path, 104)]
  }

  /** The pieces of the text, cut at multiples of the chunk size. */
  function Chunks(text: string): seq<string>
    decreases |text|
  {
    if |text| <= CHUNK then (if text == [] then [] else [text]) else [text[..CHUNK]] + Chunks(text[CHUNK..])
  }

  function Appends(path: Path, chunks: seq<string>): seq<Script>
  {
    if chunks == [] then [] else [[DecodeOnto(chunks[0], path)]] + Appends(path, chunks[1..])
  }

  function ChunkedScripts(path: Path, a: Action, text: string): seq<Script>
  {
    [[Precondition(path, a), Truncate(path)]] + Appends(path, Chunks(text)) + [[FailUnlessFile(path, 104)]]
  }

  function Build(path: Path, a: Action): seq<Script>
  {
    if a.Delete? then [DeleteScript(path)]
    else
      var text := Encode(a.content);
      if |text| <= SINGLE then [SingleScript(path, a, text)] else ChunkedScripts(path, a, text)
  }

  lemma AppendsLast(path: Path, chunks: seq<string>, chunk: string)
    ensures Appends(path, chunks + [chunk]) == Appends(path, chunks) + [[DecodeOnto(chunk, path)]]
  {
    if chunks == [] {
      assert [chunk][1..] == [];
    } else {
      assert (chunks + [chunk])[1..] == chunks[1..] + [chunk];
      AppendsLast(path, chunks[1..], chunk);
    }
  }

  lemma {:induction false} ChunksFrom(text: string, offset: nat, chunk: string)
    requires offset % CHUNK == 0 && offset < |text|
    requires chunk == if offset + CHUNK <= |text| then text[offset..offset + CHUNK] else text[offset..]
    ensures Chunks(text[..offset]) + [chunk]
            == Chunks(if offset + CHUNK <= |text| then text[..offset + CHUNK] else text)
    decreases |text|
  {
    var upTo := if offset + CHUNK <= |text| then text[..offset + CHUNK] else text;
    if offset == 0 {
      assert chunk == upTo;
      if |upTo| == CHUNK {
        assert text[..offset] == [];
      }
    } else {
      var rest := text[CHUNK..];
      ChunksFrom(rest, offset - CHUNK, chunk);
      assert text[..offset][CHUNK..] == rest[..offset - CHUNK];
      assert upTo[CHUNK..] == if offset + CHUNK <= |text| then rest[..offset] else rest;
      assert text[..offset][..CHUNK] == upTo[..CHUNK];
      ChunksHead(text[..offset]);
      ChunksHead(upTo);
    }
  }

  lemma ChunksHead(text: string)
    requires |text| >= CHUNK
    ensures Chunks(text) == [text[..CHUNK]] + Chunks(text[CHUNK..])
  {
    if |text| == CHUNK {
      assert text[CHUNK..] == [] && text[..CHUNK] == text;
    }
  }

  /** The chunk loop of the source. */
  method BuildFileMutationScripts(path: Path, a: Action) returns (scripts: seq<Script>)
    ensures scripts == Build(path, a)
  {
    if a.Delete? {
      return [DeleteScript(path)];
    }
    var text := Encode(a.content);
    if |text| <= SINGLE {
      return [SingleScript(path, a, text)];
    }
    scripts := [[Precondition(path, a), Truncate(path)]];
    ghost var appended: seq<Script> := [];
    var offset := 0;
    assert text[..0] == [];
    while offset < |text|
      invariant offset % CHUNK == 0
      invariant scripts == [[Precondition(path, a), Truncate(path)]] + appended
      invariant appended == Appends(path, Chunks(if offset <= |text| then text[..offset] else text))
    {
      var chunk := if offset + CHUNK <= |text| then text[offset..offset + CHUNK] else text[offset..];
      ChunksFrom(text, offset, chunk);
      AppendsLast(path, Chunks(text[..offset]), chunk);
      scripts := scripts + [[DecodeOnto(chunk, path)]];
      appended := appended + [[DecodeOnto(chunk, path)]];
      offset := offset + CHUNK;
    }
    assert text[..|text|] == text;
    scripts := scripts + [[FailUnlessFile(path, 104)]];
  }

  // ---- The executor and the bundle ----

  /** What an action is for. */
  function Effect(files: Files, path: Path, a: Action): (Files, int)
  {
    match a
    case Create(content) => if path in files then (files, 101) else (files[path := File(content)], 0)
    case Modify(content) => if !IsFile(files, path) then (files, 102) else (files[path := File(content)], 0)
    case Delete => if path !in files then (files, 103) else (files - {path}, 0)
  }

  datatype Step = Step(path: Path, action: Action)

  /** The actions of a proposal in order, up to the first that fails. */
  function Effects(files: Files, steps: seq<Step>): (Files, int)
    decreases |steps|
  {
    if steps == [] then (files, 0)
    else
      var (after, code) := Effect(files, steps[0].path, steps[0].action);
      if code != 0 then (after, code) else Effects(after, steps[1..])
  }

  function BundlePart(path: Path, a: Action): Script
  {
    if a.Delete? then DeleteScript(path) else SingleScript(path, a, Encode(a.content))
  }

  /** The mutation part of the bundled script. */
  function Bundle(steps: seq<Step>): Script
  {
    if steps == [] then [] else BundlePart(steps[0].path, steps[0].action) + Bundle(steps[1..])
  }
}

module MutationProofs {
  import opened Options
  import opened Base64
  import opened MutationScripts

  lemma {:induction false} RunAppend(files: Files, a: Script, b: Script)
    ensures RunScript(files, a + b)
            == if RunScript(files, a).1 != 0 then RunScript(files, a) else RunScript(RunScript(files, a).0, b)
    decreases |a|
  {
    if a == [] {
      assert a + b == b;
    } else {
      assert (a + b)[1..] == a[1..] + b;
      RunAppend(Exec(files, a[0]).0, a[1..], b);
    }
  }

  lemma {:induction false} RunsAppend(files: Files, a: seq<Script>, b: seq<Script>)
    ensures RunScripts(files, a + b)
            == if RunScripts(files, a).1 != 0 then RunScripts(files, a) else RunScripts(RunScripts(files, a).0, b)
    decreases |a|
  {
    if a == [] {
      assert a + b == b;
    } else {
      assert (a + b)[1..] == a[1..] + b;
      RunsAppend(RunScript(files, a[0]).0, a[1..], b);
    }
  }

  lemma RunOne(files: Files, a: Command)
    ensures RunScript(files, [a]) == Exec(files, a)
  {
    assert [a][1..] == [];
  }

  lemma RunTwo(files: Files, a: Command, b: Command)
    ensures RunScript(files, [a, b])
            == var (f, x) := Exec(files, a); if x != 0 then (f, x) else Exec(f, b)
  {
    assert [a, b] == [a] + [b];
    RunAppend(files, [a], [b]);
    RunOne(files, a);
    RunOne(Exec(files, a).0, b);
  }

  lemma RunThree(files: Files, a: Command, b: Command, c: Command)
    ensures RunScript(files, [a, b, c])
            == var (f, x) := Exec(files, a);
               if x != 0 then (f, x) else
               var (g, y) := Exec(f, b);
               if y != 0 then (g, y) else Exec(g, c)
  {
    assert [a, b, c] == [a, b] + [c];
    RunAppend(files, [a, b], [c]);
    RunTwo(files, a, b);
    RunOne(RunScript(files, [a, b]).0, c);
  }

  lemma RunsOne(files: Files, s: Script)
    ensures RunScripts(files, [s]) == RunScript(files, s)
  {
    assert [s][1..] == [];
  }

  lemma EncodeEmpty(s: Bytes)
    ensures Encode(s) == [] <==> s == []
  {
    EncodeLength(s);
  }

  /** One script, written in one go, has the effect of its action. */
  lemma SingleHasEffect(files: Files, path: Path, a: Action)
    ensures RunScript(files, BundlePart(path, a)) == Effect(files, path, a)
  {
    if a.Delete? {
      RunThree(files, Precondition(path, Delete), Remove(path), FailIfExists(path, 105));
    } else {
      var text := Encode(a.content);
      DecodeEncode(a.content);
      EncodeEmpty(a.content);
      RunThree(files, Precondition(path, a), Write(path, text), FailUnlessFile(path, 104));
    }
  }

  /** Decoding the chunks one by one and appending them gives the bytes, whatever their length. */
  lemma {:induction false} AppendsDecode(files: Files, path: Path, before: Bytes, s: Bytes)
    requires path in files && files[path] == File(before)
    ensures RunScripts(files, Appends(path, Chunks(Encode(s)))) == (files[path := File(before + s)], 0)
    decreases |s|
  {
    EncodeEmpty(s);
    if s == [] {
      assert before + s == before;
      assert files[path := File(before)] == files;
    } else if |Encode(s)| <= CHUNK {
      LastAppend(files, path, before, s);
    } else {
      EncodeLength(s);
      var head, tail := s[..5760], s[5760..];
      FirstChunk(s);
      AppendsStep(files, path, before, head, Encode(tail));
      AppendsDecode(files[path := File(before + head)], path, before + head, tail);
      TwoWrites(files, path, before, head, tail);
      assert head + tail == s;
    }
  }

  lemma FullChunk(head: Bytes, tail: Bytes)
    requires |head| == 5760 && tail != []
    ensures Encode(head + tail) == Encode(head) + Encode(tail) && |Encode(head)| == CHUNK && Encode(tail) != []
  {
    EncodeCut(head, tail);
    EncodeLength(head);
    EncodeEmpty(tail);
  }

  /** 5760 bytes fill the first chunk of a longer text. */
  lemma FirstChunk(s: Bytes)
    requires |s| > 5760
    ensures Encode(s) == Encode(s[..5760]) + Encode(s[5760..]) && |Encode(s[..5760])| == CHUNK && Encode(s[5760..]) != []
  {
    var head, tail := s[..5760], s[5760..];
    assert s == head + tail;
    FullChunk(head, tail);
  }

  lemma TwoWrites(files: Files, path: Path, before: Bytes, head: Bytes, tail: Bytes)
    ensures files[path := File(before + head)][path := File((before + head) + tail)]
            == files[path := File(before + (head + tail))]
  {
    assert (before + head) + tail == before + (head + tail);
  }

  /** A text of one chunk. */
  lemma LastAppend(files: Files, path: Path, before: Bytes, s: Bytes)
    requires path in files && files[path] == File(before) && s != [] && |Encode(s)| <= CHUNK
    ensures RunScripts(files, Appends(path, Chunks(Encode(s)))) == (files[path := File(before + s)], 0)
  {
    var text := Encode(s);
    EncodeEmpty(s);
    DecodeEncode(s);
    RunOne(files, DecodeOnto(text, path));
    var one := [text];
    assert Chunks(text) == one && one[1..] == [];
    RunsOne(files, [DecodeOnto(text, path)]);
    assert Appends(path, one) == [[DecodeOnto(text, path)]];
  }

  /** The first chunk of a longer text. */
  lemma AppendsStep(files: Files, path: Path, before: Bytes, head: Bytes, rest: string)
    requires path in files && files[path] == File(before) && |Encode(head)| == CHUNK && rest != []
    ensures RunScripts(files, Appends(path, Chunks(Encode(head) + rest)))
            == RunScripts(files[path := File(before + head)], Appends(path, Chunks(rest)))
  {
    var chunk, text := Encode(head), Encode(head) + rest;
    assert text[..CHUNK] == chunk && text[CHUNK..] == rest;
    var all := [chunk] + Chunks(rest);
    assert Chunks(text) == all && all[1..] == Chunks(rest) && all[0] == chunk;
    var scripts := [[DecodeOnto(chunk, path)]] + Appends(path, Chunks(rest));
    assert Appends(path, all) == scripts;
    DecodeEncode(head);
    RunOne(files, DecodeOnto(chunk, path));
    assert scripts[1..] == Appends(path, Chunks(rest)) && scripts[0] == [DecodeOnto(chunk, path)];
  }

  lemma ChunkedHasEffect(files: Files, path: Path, a: Action)
    requires !a.Delete?
    ensures RunScripts(files, ChunkedScripts(path, a, Encode(a.content))) == Effect(files, path, a)
  {
    var init, chunks, check :=
      [Precondition(path, a), Truncate(path)], Appends(path, Chunks(Encode(a.content))), [FailUnlessFile(path, 104)];
    RunTwo(files, init[0], init[1]);
    RunsOne(files, init);
    RunsAppend(files, [init] + chunks, [check]);
    RunsAppend(files, [init], chunks);
    if Exec(files, Precondition(path, a)).1 == 0 {
      var empty := files[path := File([])];
      AppendsDecode(empty, path, [], a.content);
      assert [] + a.content == a.content;
      var done := files[path := File(a.content)];
      assert empty[path := File(a.content)] == done;
      RunOne(done, check[0]);
      RunsOne(done, check);
    }
  }

  /** Whatever the content and however it is cut, the scripts built for an action do exactly what the
      action is for, with the exit code of its precondition. */
  lemma TransportRoundTrip(files: Files, path: Path, a: Action)
    ensures RunScripts(files, Build(path, a)) == Effect(files, path, a)
  {
    SingleHasEffect(files, path, a);
    RunsOne(files, BundlePart(path, a));
    if !a.Delete? {
      ChunkedHasEffect(files, path, a);
    }
  }

  /** The bundled script does what the actions do one after the other. */
  lemma {:induction false} BundleHasEffect(files: Files, steps: seq<Step>)
    ensures RunScript(files, Bundle(steps)) == Effects(files, steps)
    decreases |steps|
  {
    if steps != [] {
      var a := BundlePart(steps[0].path, steps[0].action);
      RunAppend(files, a, Bundle(steps[1..]));
      SingleHasEffect(files, steps[0].path, steps[0].action);
      BundleHasEffect(Effect(files, steps[0].path, steps[0].action).0, steps[1..]);
    }
  }

  /** The executor's two loops, script by script: the files and the exit code of the first failure are
      those of the bundled script. */
  method ApplyMutations(files: Files, steps: seq<Step>) returns (after: Files, code: int)
    ensures (after, code) == Effects(files, steps)
    ensures (after, code) == RunScript(files, Bundle(steps))
  {
    BundleHasEffect(files, steps);
    after, code := files, 0;
    for i := 0 to |steps|
      invariant code == 0
      invariant Effects(files, steps) == Effects(after, steps[i..])
    {
      var scripts := BuildFileMutationScripts(steps[i].path, steps[i].action);
      TransportRoundTrip(after, steps[i].path, steps[i].action);
      assert steps[i..][1..] == steps[i + 1..];
      after, code := RunEach(after, scripts);
      if code != 0 {
        return;
      }
    }
  }

  method RunEach(files: Files, scripts: seq<Script>) returns (after: Files, code: int)
    ensures (after, code) == RunScripts(files, scripts)
  {
    after, code := files, 0;
    for i := 0 to |scripts|
      invariant code == 0
      invariant RunScripts(files, scripts) == RunScripts(after, scripts[i..])
    {
      assert scripts[i..][1..] == scripts[i + 1..];
      var step := RunScript(after, scripts[i]);
      after, code := step.0, step.1;
      if code != 0 {
        return;
      }
    }
  }

  /** A deletion and a content of at most 8000 symbols take one script; a longer one takes a truncation, one
      script for each 7680 symbols or part of them, and a check. */
  lemma ScriptCount(path: Path, a: Action)
    ensures |Build(path, a)|
            == if a.Delete? || |Encode(a.content)| <= 8000 then 1 else 2 + (|Encode(a.content)| + 7679) / 7680
  {
    if !a.Delete? && |Encode(a.content)| > 8000 {
      ChunkCount(Encode(a.content));
      AppendsCount(path, Chunks(Encode(a.content)));
    }
  }

  /** The last command checks the result: the file is there, or is gone. */
  lemma LastCommand(path: Path, a: Action)
    ensures var scripts := Build(path, a);
            && scripts != [] && scripts[|scripts| - 1] != []
            && var last := scripts[|scripts| - 1];
               last[|last| - 1] == if a.Delete? then FailIfExists(path, 105) else FailUnlessFile(path, 104)
  {
  }

  lemma {:induction false} ChunkCount(text: string)
    ensures |Chunks(text)| == (|text| + 7679) / 7680
    decreases |text|
  {
    if |text| > CHUNK {
      ChunkCount(text[CHUNK..]);
    }
  }

  lemma {:induction false} AppendsCount(path: Path, chunks: seq<string>)
    ensures |Appends(path, chunks)| == |chunks|
  {
    if chunks != [] {
      AppendsCount(path, chunks[1..]);
    }
  }

  /** Every chunk handed to one command is at most 7680 symbols long and a whole number of groups. */
  lemma CommandsAreShort(s: Bytes)
    ensures forall i :: 0 <= i < |Chunks(Encode(s))| ==>
              |Chunks(Encode(s))[i]| <= CHUNK && |Chunks(Encode(s))[i]| % 4 == 0
  {
    EncodeLength(s);
    ChunksShort(Encode(s));
  }

  lemma {:induction false} ChunksShort(text: string)
    requires |text| % 4 == 0
    ensures forall i :: 0 <= i < |Chunks(text)| ==> |Chunks(text)[i]| <= CHUNK && |Chunks(text)[i]| % 4 == 0
    decreases |text|
  {
    if |text| > CHUNK {
      assert CHUNK % 4 == 0;
      ChunksShort(text[CHUNK..]);
    }
  }
}
