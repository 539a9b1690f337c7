/** `args_push_stack` of `userprog/process.c`: the command line, cut into words by `strtok_r`, laid
    out on the stack of a new process. */
module Args {
  import opened Wrappers

  // ---- words

  function SkipSpaces(s: string): (r: string)
    ensures |r| <= |s| && (r == "" || r[0] != ' ')
  {
    if s != "" && s[0] == ' ' then SkipSpaces(s[1..]) else s
  }

  /** Up to the next space. */
  function FirstWord(s: string): (r: string)
    ensures |r| <= |s| && r == s[..|r|] && (|r| < |s| ==> s[|r|] == ' ') && ' ' !in r
  {
    if s == "" || s[0] == ' ' then "" else [s[0]] + FirstWord(s[1..])
  }

  /** The words of a line, between spaces. */
  function Words(s: string): seq<string>
    decreases |s|
  {
    var t := SkipSpaces(s);
    if t == "" then [] else [FirstWord(t)] + Words(t[|FirstWord(t)|..])
  }

  predicate Blank(s: string) { forall i :: 0 <= i < |s| ==> s[i] == ' ' }

  /** The line is these words, none of them empty or with a space in it, with spaces between them and
      perhaps in front and behind. */
  ghost predicate Spells(line: string, words: seq<string>)
    decreases |words|
  {
    if words == [] then Blank(line)
    else exists k: nat :: Begins(line, k, words[0]) && Spells(line[k + |words[0]|..], words[1..])
  }

  /** Behind `k` spaces there is the word, and then a space or nothing. */
  ghost predicate Begins(line: string, k: nat, word: string) {
    && k + |word| <= |line| && Blank(line[..k]) && word != "" && ' ' !in word
    && line[k..k + |word|] == word && (k + |word| < |line| ==> line[k + |word|] == ' ')
  }

  lemma {:induction false} SkipsBlank(line: string, k: nat)
    requires k <= |line| && Blank(line[..k]) && (k < |line| ==> line[k] != ' ')
    ensures SkipSpaces(line) == line[k..]
  {
    if k > 0 {
      assert line[0] == line[..k][0] && line[1..][..k - 1] == line[..k][1..] && line[1..][k - 1..] == line[k..];
      SkipsBlank(line[1..], k - 1);
    }
  }

  lemma {:induction false} BlankSkipped(line: string) returns (k: nat)
    ensures k <= |line| && Blank(line[..k]) && SkipSpaces(line) == line[k..]
  {
    if line != "" && line[0] == ' ' {
      var j := BlankSkipped(line[1..]);
      k := j + 1;
      assert line[..k] == [' '] + line[1..][..j] && line[1..][j..] == line[k..];
    } else {
      k := 0;
    }
  }

  lemma {:induction false} FirstWordIs(t: string, word: string)
    requires |word| <= |t| && t[..|word|] == word && ' ' !in word && (|word| < |t| ==> t[|word|] == ' ')
    ensures FirstWord(t) == word
  {
    if word != "" {
      assert t[0] == word[0] && word[0] in word;
      assert t[1..][..|word| - 1] == word[1..];
      FirstWordIs(t[1..], word[1..]);
    }
  }

  lemma WordBegins(line: string) returns (k: nat, w: string)
    requires SkipSpaces(line) != ""
    ensures Begins(line, k, w) && SkipSpaces(line) == line[k..] && FirstWord(line[k..]) == w && !Blank(line)
    ensures Words(line) == [w] + Words(line[k + |w|..])
  {
    k := BlankSkipped(line);
    var t := SkipSpaces(line);
    w := FirstWord(t);
    assert t[0] != ' ' && line[k] == t[0];
    assert w != "";
    assert line[k + |w|..] == t[|w|..];
  }

  lemma SpellsNext(line: string, words: seq<string>, k: nat, w: string)
    requires words != [] && Begins(line, k, w) && SkipSpaces(line) == line[k..] && FirstWord(line[k..]) == w
    ensures Spells(line, words) <==> words[0] == w && Spells(line[k + |w|..], words[1..])
  {
    if Spells(line, words) { BeginsOnce(line, words, k, w); }
  }

  lemma NoWords(line: string)
    requires !Blank(line)
    ensures !Spells(line, [])
  {
  }

  /** The words of a line are the one way to read it so. */
  lemma {:induction false} WordsExact(line: string, words: seq<string>)
    ensures Spells(line, words) <==> words == Words(line)
    decreases |words|
  {
    hide Begins, Spells, Words, SkipSpaces, FirstWord, Blank;
    if SkipSpaces(line) == "" {
      var k := BlankSkipped(line);
      AllBlank(line, k, words);
    } else {
      var k, w := WordBegins(line);
      if words == [] {
        NoWords(line);
      } else {
        SpellsNext(line, words, k, w);
        BeginsIn(line, k, w);
        WordsExact(line[k + |w|..], words[1..]);
        assert words == [words[0]] + words[1..];
      }
    }
  }

  lemma AllBlank(line: string, k: nat, words: seq<string>)
    requires k == |line| && Blank(line[..k]) && SkipSpaces(line) == ""
    ensures Words(line) == [] && (Spells(line, words) <==> words == [])
  {
    assert line[..k] == line;
    forall j: nat, w: string
      ensures !Begins(line, j, w)
    {
      assert w != "" ==> w[0] in w;
      assert w != "" && j + |w| <= |line| && line[j..j + |w|] == w ==> w[0] == line[j];
    }
  }

  /** A line begins with one word only. */
  lemma BeginsAt(line: string, j: nat, word: string)
    requires Begins(line, j, word)
    ensures SkipSpaces(line) == line[j..] && FirstWord(line[j..]) == word
  {
    assert line[j] == word[0] && word[0] in word;
    SkipsBlank(line, j);
    assert line[j..][..|word|] == line[j..j + |word|];
    FirstWordIs(line[j..], word);
  }

  lemma SpelledAt(line: string, words: seq<string>) returns (j: nat)
    requires words != [] && Spells(line, words)
    ensures Begins(line, j, words[0]) && j + |words[0]| <= |line| && Spells(line[j + |words[0]|..], words[1..])
  {
    j :| Begins(line, j, words[0]) && Spells(line[j + |words[0]|..], words[1..]);
  }

  lemma BeginsOnce(line: string, words: seq<string>, k: nat, w: string)
    requires words != [] && Spells(line, words) && k <= |line| && SkipSpaces(line) == line[k..] && FirstWord(line[k..]) == w
    ensures k + |w| <= |line| && words[0] == w && Spells(line[k + |w|..], words[1..])
  {
    hide Begins, Spells, SkipSpaces, FirstWord;
    var j := SpelledAt(line, words);
    BeginsAt(line, j, words[0]);
    assert |line[j..]| == |line[k..]|;
  }

  lemma BeginsIn(line: string, j: nat, word: string)
    requires Begins(line, j, word)
    ensures j + |word| <= |line|
  {
  }

  /** A string and the null character behind it, in a buffer. */
  ghost predicate Holds(buf: seq<char>, at: nat, s: string) {
    && at + |s| < |buf| && buf[at + |s|] == '\0'
    && forall i :: 0 <= i < |s| ==> buf[at + i] == s[i] && s[i] != '\0'
  }

  ghost predicate Stored(buf: array<char>, at: nat, s: string)
    reads buf
  {
    Holds(buf[..], at, s)
  }

  lemma HoldsTail(buf: seq<char>, at: nat, s: string, k: nat)
    requires Holds(buf, at, s) && k <= |s|
    ensures Holds(buf, at + k, s[k..])
  {
    forall i | 0 <= i < |s[k..]|
      ensures buf[at + k + i] == s[k..][i] && s[k..][i] != '\0'
    {
      assert buf[at + (k + i)] == s[k + i];
    }
  }

  /** A null character cuts a string in two. */
  lemma HoldsCut(buf: seq<char>, at: nat, s: string, k: nat)
    requires Holds(buf, at, s) && k < |s|
    ensures Holds(buf[at + k := '\0'], at, s[..k]) && Holds(buf[at + k := '\0'], at + k + 1, s[k + 1..])
  {
    HoldsTail(buf, at, s, k + 1);
  }

  lemma {:induction false} SkipIs(line: string, k: nat)
    requires k <= |line| && (forall i :: 0 <= i < k ==> line[i] == ' ') && (k < |line| ==> line[k] != ' ')
    ensures SkipSpaces(line) == line[k..]
  {
    if k > 0 {
      SkipIs(line[1..], k - 1);
      assert line[1..][k - 1..] == line[k..];
    }
  }

  method SkipDelimiters(buf: array<char>, s: nat, ghost line: string) returns (p: nat)
    requires Stored(buf, s, line)
    ensures s <= p && Stored(buf, p, SkipSpaces(line))
  {
    p := s;
    while buf[p] == ' '
      invariant s <= p <= s + |line| && forall i :: 0 <= i < p - s ==> line[i] == ' '
      decreases s + |line| - p
    {
      assert p - s < |line| && buf[..][s + (p - s)] == line[p - s];
      p := p + 1;
    }
    assert p - s < |line| ==> buf[..][s + (p - s)] == line[p - s];
    SkipIs(line, p - s);
    HoldsTail(buf[..], s, line, p - s);
  }

  lemma {:induction false} WordIs(s: string, k: nat)
    requires k <= |s| && (forall i :: 0 <= i < k ==> s[i] != ' ') && (k < |s| ==> s[k] == ' ')
    ensures FirstWord(s) == s[..k]
  {
    if k > 0 {
      WordIs(s[1..], k - 1);
      assert s[..k] == [s[0]] + s[1..][..k - 1];
    }
  }

  method WordEnd(buf: array<char>, p: nat, ghost s: string) returns (q: nat)
    requires Stored(buf, p, s)
    ensures q == p + |FirstWord(s)|
  {
    q := p;
    while buf[q] != ' ' && buf[q] != '\0'
      invariant p <= q <= p + |s| && forall i :: 0 <= i < q - p ==> s[i] != ' '
      decreases p + |s| - q
    {
      assert q - p < |s| && buf[..][p + (q - p)] == s[q - p];
      q := q + 1;
    }
    assert q - p < |s| ==> buf[..][p + (q - p)] == s[q - p];
    WordIs(s, q - p);
  }

  /** The rest of a line after its first word and the space behind it. */
  function AfterWord(t: string): string {
    var n := |FirstWord(t)|;
    if n < |t| then t[n + 1..] else ""
  }

  lemma WordsUnfold(line: string)
    ensures var t := SkipSpaces(line);
      Words(line) == if t == "" then [] else [FirstWord(t)] + Words(AfterWord(t))
  {
    var t := SkipSpaces(line);
    if t != "" {
      var n := |FirstWord(t)|;
      if n < |t| {
        assert t[n..][1..] == t[n + 1..];
      } else {
        assert t[n..] == "";
      }
    }
  }

  /** `strtok_r` with a space for delimiter: `s` is where to start, and where to go on is
      returned. */
  method Strtok(buf: array<char>, s: nat, ghost line: string) returns (token: Option<nat>, save: nat, ghost rest: string)
    requires Stored(buf, s, line)
    modifies buf
    ensures Stored(buf, save, rest)
    ensures token.None? <==> Words(line) == []
    ensures token.None? ==> Words(rest) == []
    ensures token.Some? ==> Words(line) == [FirstWord(SkipSpaces(line))] + Words(rest)
    ensures token.Some? ==> Stored(buf, token.value, FirstWord(SkipSpaces(line)))
    ensures |rest| <= |line| && (token.Some? ==> |rest| < |line|)
  {
    hide Words, SkipSpaces;
    ghost var t := SkipSpaces(line);
    WordsUnfold(line);
    WordsUnfold("");
    var p := SkipDelimiters(buf, s, line);
    assert t != "" ==> buf[..][p + 0] == t[0];
    if buf[p] == '\0' {
      return None, p, "";
    }
    var q := WordEnd(buf, p, t);
    ghost var n := q - p;
    assert n < |t| ==> buf[..][p + n] == t[n];
    rest := AfterWord(t);
    if buf[q] != '\0' {
      HoldsCut(buf[..], p, t, n);
      ghost var text := buf[..];
      buf[q] := '\0';
      assert buf[..] == text[q := '\0'];
      return Some(p), q + 1, rest;
    }
    HoldsTail(buf[..], p, t, n);
    assert t == FirstWord(t);
    return Some(p), q, rest;
  }

  method StrLen(buf: array<char>, at: nat, ghost s: string) returns (n: nat)
    requires Stored(buf, at, s)
    ensures n == |s|
  {
    n := 0;
    while buf[at + n] != '\0'
      invariant n <= |s| && (n < |s| ==> buf[..][at + n] == s[n] != '\0')
      decreases |s| - n
    {
      n := n + 1;
    }
  }

  // ---- memory

  type Byte = b: int | 0 <= b < 256

  /** A 32-bit word in memory, low byte first. */
  function Word(v: int): (r: seq<Byte>)
    ensures |r| == 4
  {
    [v % 256, v / 256 % 256, v / 0x1_0000 % 256, v / 0x100_0000 % 256]
  }

  function ReadWord(m: seq<Byte>, at: nat): int
    requires at + 4 <= |m|
  {
    var b0: int, b1: int, b2: int, b3: int := m[at], m[at + 1], m[at + 2], m[at + 3];
    b0 + 256 * b1 + 0x1_0000 * b2 + 0x100_0000 * b3
  }

  lemma WordSum(v: int)
    requires 0 <= v < 0x1_0000_0000
    ensures v % 256 + 256 * (v / 256 % 256) + 0x1_0000 * (v / 0x1_0000 % 256) + 0x100_0000 * (v / 0x100_0000 % 256) == v
  {
    assert v / 0x1_0000 == v / 256 / 256 && v / 0x100_0000 == v / 256 / 256 / 256;
  }

  lemma WordReads(v: int, m: seq<Byte>, at: nat)
    requires 0 <= v < 0x1_0000_0000 && at + 4 <= |m| && m[at..at + 4] == Word(v)
    ensures ReadWord(m, at) == v
  {
    WordSum(v);
    var w := m[at..at + 4];
    assert w[0] == m[at] && w[1] == m[at + 1] && w[2] == m[at + 2] && w[3] == m[at + 3];
  }

  /** A string with its null character. */
  function Bytes(s: string): (r: seq<Byte>)
    ensures |r| == |s| + 1
  {
    seq(|s| + 1, i requires 0 <= i <= |s| => if i < |s| then Low(s[i]) else 0)
  }

  function Low(c: char): Byte { c as int % 256 }

  /** The strings as they are pushed: each below the one before. */
  function Strings(words: seq<string>): seq<Byte> {
    if words == [] then [] else Bytes(words[|words| - 1]) + Strings(words[..|words| - 1])
  }

  /** The addresses they get, from the stack pointer `esp`. */
  function Addresses(words: seq<string>, esp: int): (r: seq<int>)
    ensures |r| == |words|
  {
    if words == [] then [] else Addresses(words[..|words| - 1], esp) + [esp - |Strings(words)|]
  }

  lemma OneMore(words: seq<string>, w: string, esp: int)
    ensures Strings(words + [w]) == Bytes(w) + Strings(words)
    ensures Addresses(words + [w], esp) == Addresses(words, esp) + [esp - |Strings(words)| - |Bytes(w)|]
  {
    assert (words + [w])[..|words|] == words;
  }

  lemma {:induction false} StringsGrow(words: seq<string>, more: seq<string>)
    ensures |Strings(words + more)| >= |Strings(words)|
  {
    if more == [] {
      assert words + more == words;
    } else {
      var n := |more| - 1;
      StringsGrow(words, more[..n]);
      assert words + more == (words + more[..n]) + [more[n]];
      OneMore(words + more[..n], more[n], 0);
    }
  }

  /** Pointers one above the other. */
  function Pointers(a: seq<int>): (r: seq<Byte>)
    ensures |r| == 4 * |a|
  {
    if a == [] then [] else Word(a[0]) + Pointers(a[1..])
  }

  function Zeros(n: nat): (r: seq<Byte>)
    ensures |r| == n
  {
    seq(n, _ => 0)
  }

  const MAX_ARGS: nat := 50

  function Padding(n: nat): nat { if n % 16 > 0 then 16 - n % 16 else 0 }

  /** Bytes for the strings, the pointers and the words below them, before alignment. */
  function ArgsNum(words: seq<string>): nat { |Strings(words)| + 4 * (|words| + 1) + 8 }

  function StackSize(words: seq<string>): nat { ArgsNum(words) + Padding(ArgsNum(words)) + 4 }

  /** What is on the stack in the end, from its top on. */
  function Layout(words: seq<string>, esp: int): (r: seq<Byte>)
    ensures |r| == StackSize(words)
  {
    Word(0) + Word(|words|) + Word(esp - StackSize(words) + 12)
    + Pointers(Addresses(words, esp)) + Word(0) + Zeros(Padding(ArgsNum(words))) + Strings(words)
  }

  /** Memory, and the stack pointer of a process in it. */
  class Stack {
    const mem: array<Byte>
    var esp: nat

    constructor (mem: array<Byte>, esp: nat)
      ensures this.mem == mem && this.esp == esp
    {
      this.mem, this.esp := mem, esp;
    }

    /** `bytes` have been pushed on a stack that began at `top` in the memory `before`, and nothing
        else has changed. */
    ghost predicate Grown(before: seq<Byte>, top: nat, bytes: seq<Byte>)
      reads this, mem
    {
      && top <= |before| && esp + |bytes| == top
      && mem[..] == before[..esp] + bytes + before[top..]
    }

    method Push(b: seq<Byte>, ghost before: seq<Byte>, ghost top: nat, ghost bytes: seq<Byte>)
      requires Grown(before, top, bytes) && |b| <= esp
      modifies this, mem
      ensures Grown(before, top, b + bytes) && esp == old(esp) - |b|
    {
      esp := esp - |b|;
      Write(mem, esp, b);
      Overwritten(before, top, bytes, b);
    }

    /** Pushes a string out of a buffer. */
    method PushString(buf: array<char>, at: nat, ghost s: string, ghost before: seq<Byte>, ghost top: nat, ghost bytes: seq<Byte>)
      returns (size: nat)
      requires Grown(before, top, bytes) && Stored(buf, at, s) && |s| + 1 <= esp
      modifies this, mem
      ensures size == |Bytes(s)| && Grown(before, top, Bytes(s) + bytes)
    {
      var n := StrLen(buf, at, s);
      size := n + 1;
      var b := CopyString(buf, at, n, s);
      Push(b, before, top, bytes);
    }

    /** The words `done` are on the stack, and their addresses in `argv`. */
    ghost predicate Pushed(before: seq<Byte>, top: nat, done: seq<string>, argv: seq<int>, argsNum: nat)
      reads this, mem
    {
      argv == Addresses(done, top) && argsNum == |Strings(done)| && Grown(before, top, Strings(done))
    }

    method PushWord(buf: array<char>, at: nat, argv: seq<int>, argsNum: nat,
        ghost before: seq<Byte>, ghost top: nat, ghost done: seq<string>, ghost word: string)
      returns (argv': seq<int>, argsNum': nat)
      requires Pushed(before, top, done, argv, argsNum) && Stored(buf, at, word) && |Strings(done + [word])| <= top
      modifies this, mem
      ensures Pushed(before, top, done + [word], argv', argsNum')
    {
      OneMore(done, word, top);
      var size := PushString(buf, at, word, before, top, Strings(done));
      argv' := argv + [esp];
      argsNum' := argsNum + size;
    }

    /** Copies the words to the stack, and notes where they are. */
    method PushWords(line: string, ghost before: seq<Byte>, ghost top: nat) returns (argv: seq<int>, argsNum: nat)
      requires Grown(before, top, []) && (forall c :: c in line ==> c != '\0') && |Words(line)| <= MAX_ARGS
      requires |Strings(Words(line))| <= top
      modifies this, mem
      ensures Pushed(before, top, Words(line), argv, argsNum)
    {
      ghost var words := Words(line);
      argv, argsNum := [], 0;
      var rest := Duplicate(line);
      var at, more := 0, true;
      ghost var done, left := [], line;
      while more
        invariant fresh(rest) && Stored(rest, at, left) && words == done + Words(left)
        invariant Pushed(before, top, done, argv, argsNum)
        invariant !more ==> Words(left) == []
        decreases more, |left|
      {
        ghost var word := FirstWord(SkipSpaces(left));
        var token;
        token, at, left := Strtok(rest, at, left);
        if token.None? {
          more := false;
        } else {
          NextWord(words, done, word, left);
          assert |argv| < MAX_ARGS;
          argv, argsNum := PushWord(rest, token.value, argv, argsNum, before, top, done, word);
          done := done + [word];
        }
      }
      assert done == words;
    }

    method PushPointers(argv: seq<int>, ghost before: seq<Byte>, ghost top: nat, ghost bytes: seq<Byte>)
      requires Grown(before, top, bytes) && 4 * |argv| <= esp
      modifies this, mem
      ensures Grown(before, top, Pointers(argv) + bytes)
    {
      var i := |argv|;
      assert [] + bytes == bytes;
      while i > 0
        invariant 0 <= i <= |argv| && Grown(before, top, Pointers(argv[i..]) + bytes)
      {
        i := i - 1;
        PointersNext(argv, i, bytes);
        Push(Word(argv[i]), before, top, Pointers(argv[i + 1..]) + bytes);
      }
      assert argv[0..] == argv;
    }

    method PushPadding(n: nat, ghost before: seq<Byte>, ghost top: nat, ghost bytes: seq<Byte>)
      requires Grown(before, top, bytes) && Padding(n) <= esp
      modifies this, mem
      ensures Grown(before, top, Zeros(Padding(n)) + bytes)
    {
      var temp := n % 16;
      if temp > 0 {
        Push(Zeros(16 - temp), before, top, bytes);
      } else {
        assert Zeros(0) + bytes == bytes;
      }
    }

    /** `args_push_stack`, for at most fifty words that fit. */
    method PushArgs(line: string)
      requires esp <= mem.Length && (forall c :: c in line ==> c != '\0') && |Words(line)| <= MAX_ARGS
      requires StackSize(Words(line)) <= esp
      modifies this, mem
      ensures Grown(old(mem[..]), old(esp), Layout(Words(line), old(esp)))
      ensures esp == old(esp) - StackSize(Words(line)) && Lies(mem[..], esp, Layout(Words(line), old(esp)))
    {
      hide Words, Strings, Pointers, Word, Zeros;
      ghost var words, top, before := Words(line), esp, mem[..];
      assert mem[..] == before[..esp] + [] + before[top..];
      var argv, argsNum := PushWords(line, before, top);
      var argc := |argv|;
      argsNum := argsNum + 4 * (argc + 1) + 4 + 4;
      PushPadding(argsNum, before, top, Strings(words));
      ghost var b := Zeros(Padding(argsNum)) + Strings(words);
      Push(Word(0), before, top, b);
      b := Word(0) + b;
      PushPointers(argv, before, top, b);
      PushRest(argc, before, top, Pointers(argv) + b);
      Assemble(words, top);
    }

    /** The address of the pointers, their number, and a return address of zero. */
    method PushRest(argc: nat, ghost before: seq<Byte>, ghost top: nat, ghost bytes: seq<Byte>)
      requires Grown(before, top, bytes) && 12 <= esp
      modifies this, mem
      ensures Grown(before, top, Word(0) + (Word(argc) + (Word(old(esp)) + bytes)))
    {
      ghost var argv := esp;
      Push(Word(esp), before, top, bytes);
      Push(Word(argc), before, top, Word(argv) + bytes);
      Push(Word(0), before, top, Word(argc) + (Word(argv) + bytes));
    }
  }

  method Write(mem: array<Byte>, at: nat, b: seq<Byte>)
    requires at + |b| <= mem.Length
    modifies mem
    ensures mem[..] == old(mem[..])[..at] + b + old(mem[..])[at + |b|..]
  {
    for i := 0 to |b|
      invariant forall k :: 0 <= k < i ==> mem[at + k] == b[k]
      invariant forall k :: 0 <= k < at || at + i <= k < mem.Length ==> mem[k] == old(mem[k])
    {
      mem[at + i] := b[i];
    }
  }

  lemma Overwritten(before: seq<Byte>, top: nat, bytes: seq<Byte>, b: seq<Byte>)
    requires top <= |before| && |b| + |bytes| <= top
    ensures var e := top - |bytes|; var m := before[..e] + bytes + before[top..];
      m[..e - |b|] + b + m[e..] == before[..e - |b|] + (b + bytes) + before[top..]
  {
  }

  lemma PointersNext(argv: seq<int>, i: nat, above: seq<Byte>)
    requires i < |argv|
    ensures Word(argv[i]) + (Pointers(argv[i + 1..]) + above) == Pointers(argv[i..]) + above
  {
    assert argv[i..][1..] == argv[i + 1..];
    Associative(Word(argv[i]), Pointers(argv[i + 1..]), above);
  }

  lemma Associative(a: seq<Byte>, b: seq<Byte>, c: seq<Byte>)
    ensures a + (b + c) == (a + b) + c
  {
  }

  /** The pushes one by one, and all together. */
  lemma Assemble(words: seq<string>, esp: int)
    ensures Word(0) + (Word(|words|) + (Word(esp - StackSize(words) + 12) + (Pointers(Addresses(words, esp))
      + (Word(0) + (Zeros(Padding(ArgsNum(words))) + Strings(words)))))) == Layout(words, esp)
  {
    Regroup(Word(0), Word(|words|), Word(esp - StackSize(words) + 12), Pointers(Addresses(words, esp)), Word(0),
      Zeros(Padding(ArgsNum(words))), Strings(words));
  }

  lemma Regroup(a: seq<Byte>, b: seq<Byte>, c: seq<Byte>, d: seq<Byte>, e: seq<Byte>, f: seq<Byte>, g: seq<Byte>)
    ensures a + (b + (c + (d + (e + (f + g))))) == a + b + c + d + e + f + g
  {
    Associative(a + b + c + d + e, f, g);
    Associative(a + b + c + d, e, f + g);
    Associative(a + b + c, d, e + (f + g));
    Associative(a + b, c, d + (e + (f + g)));
    Associative(a, b, c + (d + (e + (f + g))));
  }

  lemma NextWord(words: seq<string>, done: seq<string>, word: string, left: string)
    requires words == done + ([word] + Words(left))
    ensures words == (done + [word]) + Words(left) && |Strings(done + [word])| <= |Strings(words)| && |done| < |words|
  {
    StringsGrow(done + [word], Words(left));
    assert done + ([word] + Words(left)) == (done + [word]) + Words(left);
  }

  /** A copy of a string that can be cut up. */
  method Duplicate(line: string) returns (buf: array<char>)
    requires forall c :: c in line ==> c != '\0'
    ensures fresh(buf) && Stored(buf, 0, line)
  {
    buf := new char[|line| + 1];
    for i := 0 to |line|
      invariant forall k :: 0 <= k < i ==> buf[k] == line[k]
    {
      buf[i] := line[i];
    }
    buf[|line|] := '\0';
    assert forall k :: 0 <= k < |line| ==> line[k] in line;
  }

  method CopyString(buf: array<char>, at: nat, n: nat, ghost s: string) returns (bytes: seq<Byte>)
    requires Stored(buf, at, s) && n == |s|
    ensures bytes == Bytes(s)
  {
    bytes := [];
    for i := 0 to n
      invariant |bytes| == i && forall k :: 0 <= k < i ==> bytes[k] == Bytes(s)[k]
    {
      assert buf[..][at + i] == s[i];
      bytes := bytes + [Low(buf[at + i])];
    }
    bytes := bytes + [0];
  }

  // ---- what the program finds

  /** `part` is in memory at address `at`. */
  ghost predicate Lies(m: seq<Byte>, at: int, part: seq<Byte>) {
    0 <= at && at + |part| <= |m| && m[at..at + |part|] == part
  }

  lemma Inside(m: seq<Byte>, at: int, a: seq<Byte>, b: seq<Byte>, c: seq<Byte>)
    requires Lies(m, at, a + b + c)
    ensures Lies(m, at + |a|, b)
  {
    var w := a + b + c;
    assert w[|a|..|a| + |b|] == b;
    SliceOfSlice(m, at, at + |w|, |a|, |a| + |b|);
  }

  lemma SliceOfSlice(m: seq<Byte>, lo: nat, hi: nat, x: nat, y: nat)
    requires lo <= hi <= |m| && x <= y <= hi - lo
    ensures m[lo..hi][x..y] == m[lo + x..lo + y]
  {
    var l, r := m[lo..hi][x..y], m[lo + x..lo + y];
    assert |l| == |r| && forall k :: 0 <= k < |l| ==> l[k] == r[k];
  }

  lemma {:induction false} PointerLies(m: seq<Byte>, at: int, a: seq<int>, i: nat)
    requires Lies(m, at, Pointers(a)) && i < |a|
    ensures Lies(m, at + 4 * i, Word(a[i]))
    decreases |a|
  {
    Inside(m, at, [], Word(a[0]), Pointers(a[1..]));
    assert [] + Word(a[0]) + Pointers(a[1..]) == Pointers(a);
    if i > 0 {
      assert Word(a[0]) + Pointers(a[1..]) + [] == Pointers(a);
      Inside(m, at, Word(a[0]), Pointers(a[1..]), []);
      PointerLies(m, at + 4, a[1..], i - 1);
    }
  }

  lemma {:induction false} StringLies(m: seq<Byte>, words: seq<string>, esp: int, i: nat)
    requires Lies(m, esp - |Strings(words)|, Strings(words)) && i < |words|
    ensures Lies(m, Addresses(words, esp)[i], Bytes(words[i]))
  {
    var n := |words| - 1;
    var last, others := Bytes(words[n]), Strings(words[..n]);
    if i == n {
      assert [] + last + others == Strings(words);
      Inside(m, esp - |Strings(words)|, [], last, others);
    } else {
      assert last + others + [] == Strings(words);
      Inside(m, esp - |Strings(words)|, last, others, []);
      StringLies(m, words[..n], esp, i);
    }
  }

  /** The parts of the layout. */
  lemma PartsLie(m: seq<Byte>, words: seq<string>, esp: int)
    requires Lies(m, esp - StackSize(words), Layout(words, esp))
    ensures var sp := esp - StackSize(words);
      && Lies(m, sp, Word(0)) && Lies(m, sp + 4, Word(|words|)) && Lies(m, sp + 8, Word(sp + 12))
      && Lies(m, sp + 12, Pointers(Addresses(words, esp))) && Lies(m, sp + 12 + 4 * |words|, Word(0))
      && Lies(m, esp - |Strings(words)|, Strings(words))
  {
    var sp, p, z := esp - StackSize(words), Pointers(Addresses(words, esp)), Zeros(Padding(ArgsNum(words)));
    SevenLie(m, sp, Word(0), Word(|words|), Word(sp + 12), p, Word(0), z, Strings(words));
  }

  lemma SevenLie(m: seq<Byte>, at: int, a: seq<Byte>, b: seq<Byte>, c: seq<Byte>, d: seq<Byte>, e: seq<Byte>, f: seq<Byte>, g: seq<Byte>)
    requires Lies(m, at, a + b + c + d + e + f + g)
    ensures Lies(m, at, a) && Lies(m, at + |a|, b) && Lies(m, at + |a| + |b|, c) && Lies(m, at + |a| + |b| + |c|, d)
    ensures Lies(m, at + |a| + |b| + |c| + |d|, e) && Lies(m, at + |a| + |b| + |c| + |d| + |e| + |f|, g)
  {
    var ab, abc, abcd, all := a + b, a + b + c, a + b + c + d, a + b + c + d + e + f + g;
    assert all == [] + a + (b + c + d + e + f + g) && all == a + b + (c + d + e + f + g) && all == ab + c + (d + e + f + g);
    assert all == abc + d + (e + f + g) && all == abcd + e + (f + g) && all == (abcd + e + f) + g + [];
    Inside(m, at, [], a, b + c + d + e + f + g);
    Inside(m, at, a, b, c + d + e + f + g);
    Inside(m, at, ab, c, d + e + f + g);
    Inside(m, at, abc, d, e + f + g);
    Inside(m, at, abcd, e, f + g);
    Inside(m, at, abcd + e + f, g, []);
  }

  /** A program that starts on this stack finds the number of its words, the address of their
      pointers, each pointer leading to its word with a null character behind it, and a null
      pointer at the end; from an aligned stack its own is 12 past a multiple of 16. */
  lemma ProgramFindsArgs(m: seq<Byte>, words: seq<string>, esp: nat)
    requires |m| <= 0x1_0000_0000 && |words| <= MAX_ARGS && StackSize(words) <= esp <= |m|
    requires Lies(m, esp - StackSize(words), Layout(words, esp))
    ensures esp % 16 == 0 ==> (esp - StackSize(words)) % 16 == 12
    ensures FixedWords(m, esp - StackSize(words), |words|)
    ensures forall i: nat :: i < |words| ==> PointsTo(m, esp - StackSize(words) + 12 + 4 * i, words[i])
  {
    hide Lies, Layout, Word, Pointers, Addresses, Strings, FixedWords, PointsTo, ArgsNum, Padding;
    PartsLie(m, words, esp);
    FixedFound(m, esp - StackSize(words), |words|);
    forall i: nat | i < |words|
      ensures PointsTo(m, esp - StackSize(words) + 12 + 4 * i, words[i])
    {
      PointerFound(m, words, esp, i);
    }
    Aligned(esp, ArgsNum(words));
  }

  /** The return address, the number of pointers, their address, and the null pointer. */
  ghost predicate FixedWords(m: seq<Byte>, sp: nat, argc: nat) {
    && sp + 16 + 4 * argc <= |m|
    && ReadWord(m, sp) == 0 && ReadWord(m, sp + 4) == argc && ReadWord(m, sp + 8) == sp + 12
    && ReadWord(m, sp + 12 + 4 * argc) == 0
  }

  lemma FixedFound(m: seq<Byte>, sp: nat, argc: nat)
    requires |m| <= 0x1_0000_0000 && argc <= MAX_ARGS && Lies(m, sp, Word(0)) && Lies(m, sp + 4, Word(argc))
    requires Lies(m, sp + 8, Word(sp + 12)) && Lies(m, sp + 12 + 4 * argc, Word(0))
    ensures FixedWords(m, sp, argc)
  {
    LyingWord(m, sp, 0);
    LyingWord(m, sp + 4, argc);
    LyingWord(m, sp + 8, sp + 12);
    LyingWord(m, sp + 12 + 4 * argc, 0);
  }

  lemma LyingWord(m: seq<Byte>, at: int, v: int)
    requires 0 <= v < 0x1_0000_0000 && Lies(m, at, Word(v))
    ensures ReadWord(m, at) == v
  {
    WordReads(v, m, at);
  }

  lemma PointerFound(m: seq<Byte>, words: seq<string>, esp: nat, i: nat)
    requires |m| <= 0x1_0000_0000 && StackSize(words) <= esp <= |m| && i < |words|
    requires Lies(m, esp - StackSize(words) + 12, Pointers(Addresses(words, esp)))
    requires Lies(m, esp - |Strings(words)|, Strings(words))
    ensures PointsTo(m, esp - StackSize(words) + 12 + 4 * i, words[i])
  {
    PointerLies(m, esp - StackSize(words) + 12, Addresses(words, esp), i);
    StringLies(m, words, esp, i);
    LyingWord(m, esp - StackSize(words) + 12 + 4 * i, Addresses(words, esp)[i]);
  }

  ghost predicate PointsTo(m: seq<Byte>, at: nat, word: string) {
    at + 4 <= |m| && Lies(m, ReadWord(m, at), Bytes(word))
  }

  lemma Aligned(esp: nat, n: nat)
    ensures esp % 16 == 0 ==> (esp - (n + Padding(n) + 4)) % 16 == 12
  {
    assert (n + Padding(n)) % 16 == 0;
  }

  /** The pointers lead to different places: no two strings share a byte. */
  lemma {:induction false} StringsApart(words: seq<string>, esp: int, i: nat, j: nat)
    requires i < j < |words|
    ensures Addresses(words, esp)[j] + |Bytes(words[j])| <= Addresses(words, esp)[i]
  {
    var n := |words| - 1;
    if j < n {
      StringsApart(words[..n], esp, i, j);
    } else {
      AddressAbove(words[..n], esp, i);
    }
  }

  lemma {:induction false} AddressAbove(words: seq<string>, esp: int, i: nat)
    requires i < |words|
    ensures esp - |Strings(words)| <= Addresses(words, esp)[i]
  {
    var n := |words| - 1;
    if i < n { AddressAbove(words[..n], esp, i); }
  }
}
