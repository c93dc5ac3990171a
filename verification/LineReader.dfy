/** cc.go: reading the upstream's newline-delimited events through a bounded buffer. */
module LineReader {
  import opened Text

  /* ---- What a stream of lines means ---- */

  predicate NoNewline(s: string) { '\n' !in s }

  predicate Terminated(line: string) { line != [] && line[|line| - 1] == '\n' }

  /** The length of the first line, its newline included. */
  function Cut(s: string): (c: nat)
    ensures s != [] ==> 0 < c
    ensures c <= |s|
    ensures c > 0 ==> NoNewline(s[..c - 1])
    ensures c < |s| ==> Terminated(s[..c])
  {
    if s == [] then 0
    else if s[0] == '\n' then 1
    else
      var c := Cut(s[1..]);
      assert c > 0 ==> s[..c] == [s[0]] + s[1..][..c - 1];
      assert c < |s[1..]| ==> s[..1 + c][c] == s[1..][..c][c - 1];
      1 + c
  }

  /** The lines of s, each with its newline; the last one may lack it. */
  function Lines(s: string): seq<string> {
    if s == [] then [] else [s[..Cut(s)]] + Lines(s[Cut(s)..])
  }

  predicate Blank(c: char) { c == ' ' || c == '\t' }

  predicate BlankOrEnd(c: char) { Blank(c) || c == '\n' || c == '\r' }

  function TrimEnd(b: string): (r: string) {
    if b != [] && BlankOrEnd(b[|b| - 1]) then TrimEnd(b[..|b| - 1]) else b
  }

  function TrimStart(b: string): string {
    if b != [] && Blank(b[0]) then TrimStart(b[1..]) else b
  }

  function Trimmed(b: string): string { TrimStart(TrimEnd(b)) }

  ghost predicate Strips(b: string, left: nat, r: string) {
    && left + |r| <= |b|
    && b[left..left + |r|] == r
    && (forall k :: 0 <= k < left ==> Blank(b[k]))
    && (forall k :: left + |r| <= k < |b| ==> BlankOrEnd(b[k]))
    && (r != [] ==> !Blank(r[0]) && !BlankOrEnd(r[|r| - 1]))
  }

  lemma BlanksAre()
    ensures forall c :: Blank(c) <==> c in " \t"
    ensures forall c :: BlankOrEnd(c) <==> c in " \t\r\n"
  {
    forall c ensures Blank(c) <==> c in " \t" {
      assert " \t"[0] == ' ' && " \t"[1] == '\t';
    }
    forall c ensures BlankOrEnd(c) <==> c in " \t\r\n" {
      var all := " \t\r\n";
      assert all[0] == ' ' && all[1] == '\t' && all[2] == '\r' && all[3] == '\n';
    }
  }

  lemma {:induction false} TrimEndIs(b: string)
    ensures var r := TrimEnd(b);
      && |r| <= |b| && b[..|r|] == r
      && (forall k :: |r| <= k < |b| ==> BlankOrEnd(b[k]))
      && (r != [] ==> !BlankOrEnd(r[|r| - 1]))
  {
    if b != [] && BlankOrEnd(b[|b| - 1]) {
      TrimEndIs(b[..|b| - 1]);
      assert b[..|b| - 1][..|TrimEnd(b)|] == b[..|TrimEnd(b)|];
    }
  }

  lemma {:induction false} TrimStartIs(b: string)
    ensures var r := TrimStart(b); var left := |b| - |r|;
      && 0 <= left && b[left..] == r
      && (forall k :: 0 <= k < left ==> Blank(b[k]))
      && (r != [] ==> !Blank(r[0]))
  {
    if b != [] && Blank(b[0]) {
      TrimStartIs(b[1..]);
      var r := TrimStart(b);
      assert b[1..][|b| - 1 - |r|..] == b[|b| - |r|..];
      forall k | 0 <= k < |b| - |r| ensures Blank(b[k]) {
        assert k > 0 ==> b[k] == b[1..][k - 1];
      }
    }
  }

  lemma TrimmedStrips(b: string) returns (left: nat)
    ensures Strips(b, left, Trimmed(b))
  {
    var e := TrimEnd(b);
    TrimEndIs(b);
    TrimStartIs(e);
    left := |e| - |Trimmed(b)|;
    assert e[left..] == b[left..|e|];
  }

  /** Trimming takes blanks from the front, and blanks and line ends from the back, until neither is
      possible; nothing else is left to choose. */
  lemma TrimmedIsOnly(b: string, left: nat, r: string)
    requires Strips(b, left, r)
    ensures r == Trimmed(b)
  {
    var at := TrimmedStrips(b);
    var t := Trimmed(b);
    if r != [] {
      assert b[left] == r[0] && b[left + |r| - 1] == r[|r| - 1];
      assert at + |t| >= left + |r|;
      assert t != [];
      assert b[at] == t[0] && b[at + |t| - 1] == t[|t| - 1];
    }
  }

  /** trimLine. */
  method TrimLine(line: string) returns (r: string)
    ensures r == Trimmed(line)
  {
    r := line;
    while |r| > 0 && (r[|r| - 1] == '\n' || r[|r| - 1] == '\r' || r[|r| - 1] == ' ' || r[|r| - 1] == '\t')
      invariant TrimEnd(r) == TrimEnd(line)
      decreases |r|
    {
      r := r[..|r| - 1];
    }
    while |r| > 0 && (r[0] == ' ' || r[0] == '\t')
      invariant TrimStart(r) == Trimmed(line)
      decreases |r|
    {
      r := r[1..];
    }
  }

  /* ---- The buffered reader ---- */

  /** How the byte stream ends. */
  datatype End = Eof | Failed(error: string)

  datatype Slice = Found | Full | Ended

  /** bufio.Reader over a source that hands out its bytes in pieces of any size, and announces its end
      together with the last piece, if it is `early`, or afterwards. */
  class BufReader {
    const input: string
    const end: End
    const early: bool
    const size: nat
    /** How much of the input the source has handed out, and what of it is still in the buffer. */
    var taken: nat
    var held: string
    var pending: bool

    constructor (input: string, end: End, early: bool, size: nat)
      requires size > 0
      ensures Valid() && At() == 0
      ensures this.input == input && this.end == end && this.early == early && this.size == size
    {
      this.input, this.end, this.early, this.size, taken, held, pending := input, end, early, size, 0, "", false;
    }

    ghost predicate Valid()
      reads this
    {
      && size > 0
      && |held| <= size && |held| <= taken <= |input|
      && held == input[taken - |held|..taken]
      && (pending ==> taken == |input| && (early || |held| < size))
      && (early && taken == |input| && held != "" ==> pending)
    }

    /** How much of the input has been read out of the buffer. */
    ghost function At(): nat
      reads this
      requires Valid()
    {
      taken - |held|
    }

    /** One read from the source into the free part of the buffer. */
    method Fill()
      requires Valid() && !pending && |held| < size
      modifies this
      ensures Valid() && At() == old(At())
      ensures taken > old(taken) || pending
      ensures taken >= old(taken) && old(held) <= held
    {
      var most := if size - |held| < |input| - taken then size - |held| else |input| - taken;
      var n: nat :| n <= most && (n > 0 || most == 0);
      ghost var before := At();
      held := held + input[taken..taken + n];
      taken := taken + n;
      assert held == input[before..taken];
      pending := taken == |input| && (n == 0 || early);
    }

    lemma Bounds()
      requires Valid()
      ensures 0 < size && |held| <= taken <= |input|
      ensures |held| <= size && At() + |held| == taken
      ensures pending ==> taken == |input| && (early || |held| < size)
      ensures early && taken == |input| && held != "" ==> pending
    {
    }

    /** Reads n bytes out of the buffer. */
    method Take(n: nat) returns (line: string)
      requires Valid() && n <= |held|
      modifies this`held
      ensures Valid() && At() == old(At()) + n && line == input[old(At())..At()]
      ensures line == old(held)[..n] && (n == |old(held)| ==> line == old(held))
    {
      ghost var from := At();
      line, held := held[..n], held[n..];
      assert line == input[from..from + n];
    }

    /** ReadSlice('\n'): up to and including the next newline, or a full buffer, or all that is left. */
    method ReadSlice() returns (line: string, slice: Slice)
      requires Valid()
      modifies this
      ensures Valid() && At() == old(At()) + |line| && line == input[old(At())..At()] && |line| <= size
      ensures slice == Found ==> Terminated(line) && NoNewline(line[..|line| - 1])
      ensures slice == Full ==> |line| == size && NoNewline(line) && (early ==> At() < |input|)
      ensures slice == Ended ==> At() == |input| && NoNewline(line) && (early || |line| < size)
    {
      FillBuffer();
      hide Cut, NoNewline, Valid, Terminated;
      Bounds();
      if !NoNewline(held) {
        CutLine(held);
        line := Take(Cut(held));
        slice := Found;
      } else if pending {
        line := Take(|held|);
        EndRead();
        slice := Ended;
      } else {
        line := Take(|held|);
        slice := Full;
      }
    }

    /** Reads on until there is a newline, or the end, or no more room. */
    method FillBuffer()
      requires Valid()
      modifies this
      ensures Valid() && At() == old(At())
      ensures !NoNewline(held) || pending || |held| == size
    {
      hide NoNewline;
      while NoNewline(held) && !pending && |held| < size
        invariant Valid() && At() == old(At())
        decreases |input| - taken, !pending
      {
        Fill();
      }
    }

    /** The end is announced once. */
    method EndRead()
      requires Valid() && held == ""
      modifies this`pending
      ensures Valid() && At() == old(At())
    {
      pending := false;
    }
  }

  lemma CutLine(s: string)
    requires !NoNewline(s)
    ensures var line := s[..Cut(s)]; Terminated(line) && NoNewline(line[..|line| - 1])
  {
    var c := Cut(s);
    assert c > 0;
    assert s[..c][..c - 1] == s[..c - 1];
    if c == |s| {
      assert s == s[..c - 1] + [s[c - 1]];
    }
  }

  /** A text cut into lines: none is empty, a newline ends each, except that the last one may lack it, and
      there is no other. */
  ghost predicate IsCut(lines: seq<string>) {
    && (forall k :: 0 <= k < |lines| ==> lines[k] != [] && NoNewline(lines[k][..|lines[k]| - 1]))
    && (forall k :: 0 <= k < |lines| - 1 ==> Terminated(lines[k]))
  }

  lemma {:induction false} ConcatFirst(lines: seq<string>)
    requires lines != []
    ensures Concat(lines) == lines[0] + Concat(lines[1..])
  {
    var n := |lines| - 1;
    if n > 0 {
      ConcatFirst(lines[..n]);
      assert lines[..n][1..] == lines[1..][..n - 1];
      Assoc3(lines[0], Concat(lines[1..][..n - 1]), lines[n]);
    } else {
      assert lines == [lines[0]] && lines[1..] == [];
      ConcatOne(lines[0]);
      ConcatNone();
    }
  }

  /** The lines put together are the text. */
  lemma {:induction false} LinesAddUp(s: string)
    ensures Concat(Lines(s)) == s && IsCut(Lines(s))
    decreases |s|
  {
    hide NoNewline, Concat, Cut;
    if s == [] {
      ConcatNone();
    } else {
      var c := Cut(s);
      CutBounds(s);
      LinesAddUp(s[c..]);
      ConcatFirst(Lines(s));
      assert Lines(s)[1..] == Lines(s[c..]);
      assert s[..c][..c - 1] == s[..c - 1];
      forall k | 0 < k < |Lines(s)| ensures Lines(s)[k] == Lines(s[c..])[k - 1] {
      }
    }
  }

  lemma CutBounds(s: string)
    requires s != []
    ensures 0 < Cut(s) <= |s| && NoNewline(s[..Cut(s) - 1])
    ensures Cut(s) < |s| ==> Terminated(s[..Cut(s)])
  {
  }

  /** And there is no other way to cut it. */
  lemma {:induction false} LinesAreOnly(lines: seq<string>)
    requires IsCut(lines)
    ensures Lines(Concat(lines)) == lines
  {
    hide NoNewline, Concat, Lines, Cut;
    if lines == [] {
      ConcatNone();
      NoLines();
    } else {
      var s, c, rest := Concat(lines), |lines[0]|, lines[1..];
      ConcatFirst(lines);
      forall k | 0 <= k < |rest| ensures rest[k] == lines[k + 1] {
      }
      LinesAreOnly(rest);
      assert s[..c] == lines[0] && s[c..] == Concat(rest);
      if Terminated(lines[0]) {
        assert s[..c - 1] == lines[0][..c - 1];
        FirstLine(s, c);
      } else {
        assert |lines| == 1 && rest == [];
        ConcatNone();
        assert s == lines[0];
        Untouched(s);
        LastLine(s);
      }
    }
  }

  lemma NoLines()
    ensures Lines([]) == []
  {
  }

  lemma Untouched(s: string)
    requires s != [] && NoNewline(s[..|s| - 1]) && !Terminated(s)
    ensures NoNewline(s)
  {
    assert s == s[..|s| - 1] + [s[|s| - 1]];
  }

  /* ---- Reading lines ---- */

  /** The least multiple of the buffer size above the limit. */
  function Reach(size: nat, limit: nat): (r: nat)
    requires size > 0
    ensures limit < r <= limit + size
  {
    (limit / size + 1) * size
  }

  /** How long a line is without its newline. */
  function Content(line: string): nat { if Terminated(line) then |line| - 1 else |line| }

  /** A line that is rejected. An unterminated one that just fills the last buffer is so if the end of the
      stream is announced only afterwards. */
  predicate Rejected(line: string, size: nat, limit: nat, early: bool)
    requires size > 0
  {
    Content(line) >= Reach(size, limit) && !(early && Borderline(line, size, limit))
  }

  predicate Borderline(line: string, size: nat, limit: nat)
    requires size > 0
  {
    !Terminated(line) && |line| == Reach(size, limit)
  }

  datatype Outcome = Done | ReadError(error: string) | TooLong | Stopped(cause: string)

  /** The callback, as a function of the lines delivered up to and including the present one. */
  type Callback = seq<string> -> Option<string>

  ghost predicate Delivers(lines: seq<string>, delivered: seq<string>) {
    |delivered| <= |lines| && forall k :: 0 <= k < |delivered| ==> delivered[k] == Trimmed(lines[k])
  }

  ghost predicate Undisturbed(fn: Callback, delivered: seq<string>, n: nat) {
    n <= |delivered| && forall k :: 0 < k <= n ==> fn(delivered[..k]).None?
  }

  ghost predicate NoneRejected(lines: seq<string>, n: nat, size: nat, limit: nat, early: bool)
    requires size > 0
  {
    n <= |lines| && forall k :: 0 <= k < n ==> !Rejected(lines[k], size, limit, early)
  }

  /** What a run over this input comes to. */
  ghost predicate Reads(input: string, end: End, early: bool, size: nat, limit: nat, fn: Callback, outcome: Outcome,
                        delivered: seq<string>)
    requires size > 0
  {
    var lines := Lines(input);
    && Delivers(lines, delivered)
    && NoneRejected(lines, |delivered|, size, limit, early)
    && match outcome
       case Done => end == Eof && |delivered| == |lines| && Undisturbed(fn, delivered, |delivered|)
       case ReadError(e) => end == Failed(e) && |delivered| == |lines| && Undisturbed(fn, delivered, |delivered|)
       case TooLong =>
         && |delivered| < |lines| && Undisturbed(fn, delivered, |delivered|)
         && Rejected(lines[|delivered|], size, limit, early)
       case Stopped(cause) =>
         delivered != [] && fn(delivered) == Some(cause) && Undisturbed(fn, delivered, |delivered| - 1)
  }

  lemma FirstLine(s: string, c: nat)
    requires 0 < c <= |s| && NoNewline(s[..c - 1]) && s[c - 1] == '\n'
    ensures Cut(s) == c && Lines(s) == [s[..c]] + Lines(s[c..])
    decreases c
  {
    CutIs(s, c);
  }

  lemma {:induction false} CutIs(s: string, c: nat)
    requires 0 < c <= |s| && NoNewline(s[..c - 1]) && s[c - 1] == '\n'
    ensures Cut(s) == c
  {
    if c > 1 {
      assert s[0] == s[..c - 1][0];
      assert s[1..][..c - 2] == s[..c - 1][1..];
      CutIs(s[1..], c - 1);
    }
  }

  lemma {:induction false} NoCut(s: string)
    requires NoNewline(s)
    ensures Cut(s) == |s|
  {
    if s != [] {
      assert s[0] in s;
      NoCut(s[1..]);
    }
  }

  lemma LastLine(s: string)
    requires NoNewline(s) && s != []
    ensures Lines(s) == [s]
  {
    NoCut(s);
    var c := Cut(s);
    assert s[..c] == s && s[c..] == [];
  }

  /** A line that starts with this many bytes and no newline. */
  lemma LongLine(s: string, n: nat)
    requires 0 < n <= |s| && NoNewline(s[..n])
    ensures Lines(s) != [] && Content(Lines(s)[0]) >= n
  {
    var c := Cut(s);
    var line := s[..c];
    assert c <= n ==> s[..n][c - 1] == line[c - 1];
  }

  lemma Scale(a: int, b: int, size: nat)
    requires a <= b
    ensures a * size <= b * size
  {
  }

  lemma ReachAt(k: nat, size: nat, limit: nat)
    requires k > 0 && size > 0
    ensures k * size > limit >= (k - 1) * size ==> k * size == Reach(size, limit)
    ensures limit >= (k - 1) * size ==> k * size <= Reach(size, limit)
  {
    var q := limit / size;
    assert limit == q * size + limit % size;
    assert (q + 1) * size == q * size + size && (k - 1) * size == k * size - size;
    if k <= q {
      Scale(k, q, size);
    } else {
      Scale(q + 1, k, size);
      if k > q + 1 {
        Scale(q + 2, k, size);
        assert (q + 2) * size == q * size + size + size;
      }
    }
  }

  datatype Raw = Line | Tail | Over

  /** The inner part of readCCLines: one raw line, put together from as many buffers as it takes, unless
      it grows over the limit. */
  method NextLine(r: BufReader, limit: nat) returns (line: string, raw: Raw)
    requires r.Valid()
    modifies r
    ensures r.Valid()
    ensures raw != Over ==> r.At() == old(r.At()) + |line| && line == r.input[old(r.At())..r.At()]
    ensures raw == Line ==> Terminated(line) && NoNewline(line[..|line| - 1]) && |line| <= Reach(r.size, limit)
    ensures raw == Tail ==> NoNewline(line) && r.At() == |r.input| && |line| <= Reach(r.size, limit)
    ensures raw == Tail && |line| == Reach(r.size, limit) ==> r.early
    ensures raw == Over ==>
      && |line| == Reach(r.size, limit) && NoNewline(line)
      && (r.early ==> old(r.At()) + |line| < |r.input|)
      && old(r.At()) + |line| <= |r.input| && line == r.input[old(r.At())..old(r.At()) + |line|]
  {
    hide Reach, NoNewline, BufReader.Valid, Whole, Times;
    ghost var from := r.At();
    var slice: Slice;
    line, slice := r.ReadSlice();
    r.Bounds();
    WholeFirst(r.size, limit);
    if slice == Full {
      var scratch := line;
      while slice == Full
        invariant r.Valid() && r.size > 0 && from <= r.At() == from + |scratch| <= |r.input|
        invariant scratch == r.input[from..r.At()]
        invariant slice == Full ==> Whole(|scratch|, r.size, limit) && NoNewline(scratch)
        invariant slice == Full ==> (r.early ==> r.At() < |r.input|)
        invariant slice == Found ==> Terminated(scratch) && NoNewline(scratch[..|scratch| - 1])
        invariant slice == Ended ==> NoNewline(scratch) && r.At() == |r.input|
        invariant slice != Full ==> |scratch| <= Reach(r.size, limit)
        invariant slice == Ended && |scratch| == Reach(r.size, limit) ==> r.early
        decreases if slice == Full then 1 else 0, |r.input| - r.At()
      {
        WholeNext(|scratch|, r.size, limit);
        if |scratch| > limit {
          return scratch, Over;
        }
        ghost var before, at := scratch, r.At();
        line, slice := r.ReadSlice();
        r.Bounds();
        scratch := scratch + line;
        Adjoin(r.input, from, at, r.At());
        Extend(before, line);
      }
      line := scratch;
    }
    raw := if slice == Found then Line else Tail;
  }

  /** n bytes are a whole number of buffers, and all but the last of them within the limit. */
  ghost predicate Whole(n: nat, size: nat, limit: nat) {
    exists k: nat :: k > 0 && n == Times(k, size) && limit >= Times(k - 1, size)
  }

  function Times(k: int, size: nat): int { k * size }

  lemma WholeFirst(size: nat, limit: nat)
    requires size > 0
    ensures Whole(size, size, limit) && size <= Reach(size, limit)
  {
    ReachAt(1, size, limit);
    assert size == Times(1, size) && limit >= Times(0, size);
  }

  lemma WholeNext(n: nat, size: nat, limit: nat)
    requires size > 0 && Whole(n, size, limit)
    ensures n > limit ==> n == Reach(size, limit)
    ensures n <= limit ==> Whole(n + size, size, limit) && n + size <= Reach(size, limit)
  {
    var k: nat :| k > 0 && n == Times(k, size) && limit >= Times(k - 1, size);
    ReachAt(k, size, limit);
    ReachAt(k + 1, size, limit);
    NextBuffer(k + 1, size);
    if n <= limit {
      assert n + size == Times(k + 1, size) && limit >= Times(k, size);
    }
  }

  lemma Adjoin(s: string, a: nat, b: nat, c: nat)
    requires a <= b <= c <= |s|
    ensures s[a..b] + s[b..c] == s[a..c]
  {
  }

  lemma NextBuffer(k: nat, size: nat)
    requires k > 0
    ensures k * size == (k - 1) * size + size
  {
  }

  lemma Extend(a: string, b: string)
    ensures NoNewline(a) && NoNewline(b) ==> NoNewline(a + b)
    ensures NoNewline(a) && Terminated(b) && NoNewline(b[..|b| - 1]) ==>
      Terminated(a + b) && NoNewline((a + b)[..|a + b| - 1])
  {
    if b != [] {
      assert (a + b)[..|a + b| - 1] == a + b[..|b| - 1];
    }
  }

  /** The first n lines of the input end at this offset. */
  ghost predicate Position(input: string, at: nat, n: nat) {
    at <= |input| && n <= |Lines(input)| && Lines(input)[n..] == Lines(input[at..])
  }

  lemma Start(input: string, fn: Callback)
    ensures Position(input, 0, 0) && Undisturbed(fn, [], 0)
  {
    assert input[0..] == input;
  }

  lemma LineStep(input: string, at: nat, n: nat, line: string)
    requires Position(input, at, n) && at + |line| <= |input| && line == input[at..at + |line|]
    requires Terminated(line) && NoNewline(line[..|line| - 1])
    ensures n < |Lines(input)| && Lines(input)[n] == line && Position(input, at + |line|, n + 1)
  {
    FirstOfRest(input, at, line);
    hide Lines, NoNewline, Terminated;
    assert Lines(input)[n] == Lines(input)[n..][0];
    assert Lines(input)[n + 1..] == Lines(input)[n..][1..];
  }

  lemma FirstOfRest(input: string, at: nat, line: string)
    requires at + |line| <= |input| && line == input[at..at + |line|]
    requires Terminated(line) && NoNewline(line[..|line| - 1])
    ensures Lines(input[at..]) == [line] + Lines(input[at + |line|..])
  {
    hide Lines, Cut, NoNewline;
    var rest, c := input[at..], |line|;
    assert rest[..c] == line && rest[c..] == input[at + c..];
    assert rest[..c - 1] == line[..c - 1];
    assert rest[c - 1] == line[c - 1];
    FirstLine(rest, c);
  }

  lemma Deliver(lines: seq<string>, delivered: seq<string>, line: string, size: nat, limit: nat, early: bool)
    requires size > 0 && Delivers(lines, delivered) && NoneRejected(lines, |delivered|, size, limit, early)
    requires |delivered| < |lines| && lines[|delivered|] == line && |line| <= Reach(size, limit)
    requires |line| == Reach(size, limit) ==> Terminated(line) || early
    ensures Delivers(lines, delivered + [Trimmed(line)]) && NoneRejected(lines, |delivered| + 1, size, limit, early)
  {
    hide Reach, Trimmed;
  }

  lemma Onward(fn: Callback, delivered: seq<string>, next: string)
    requires Undisturbed(fn, delivered, |delivered|)
    ensures Undisturbed(fn, delivered + [next], |delivered|)
    ensures fn(delivered + [next]).None? ==> Undisturbed(fn, delivered + [next], |delivered| + 1)
  {
    var all := delivered + [next];
    forall k | 0 < k <= |delivered| ensures fn(all[..k]).None? {
      assert all[..k] == delivered[..k];
    }
    assert all[..|all|] == all;
  }

  lemma TailStep(input: string, at: nat, n: nat)
    requires Position(input, at, n) && NoNewline(input[at..])
    ensures at == |input| ==> n == |Lines(input)|
    ensures at < |input| ==> n + 1 == |Lines(input)| && Lines(input)[n] == input[at..]
  {
    if at < |input| {
      LastLine(input[at..]);
      assert Lines(input)[n] == Lines(input)[n..][0];
    }
  }

  lemma OverStep(input: string, at: nat, n: nat, line: string, size: nat, limit: nat, early: bool)
    requires Position(input, at, n) && at + |line| <= |input| && line == input[at..at + |line|]
    requires size > 0 && NoNewline(line) && |line| == Reach(size, limit) && (early ==> at + |line| < |input|)
    ensures n < |Lines(input)| && Rejected(Lines(input)[n], size, limit, early)
  {
    hide Reach;
    var rest := input[at..];
    assert rest[..|line|] == line;
    LongLine(rest, |line|);
    assert Lines(input)[n] == Lines(input)[n..][0];
  }

  /** readCCLines. */
  method ReadLines(r: BufReader, limit: nat, fn: Callback) returns (outcome: Outcome, delivered: seq<string>)
    requires r.Valid() && r.At() == 0
    modifies r
    ensures Reads(r.input, r.end, r.early, r.size, limit, fn, outcome, delivered)
  {
    hide Lines, NoNewline, Reach, Trimmed, Position, Undisturbed, Rejected;
    ghost var lines := Lines(r.input);
    Start(r.input, fn);
    delivered := [];
    while true
      invariant r.Valid() && Position(r.input, r.At(), |delivered|)
      invariant Delivers(lines, delivered) && NoneRejected(lines, |delivered|, r.size, limit, r.early)
      invariant Undisturbed(fn, delivered, |delivered|)
      decreases |r.input| - r.At()
    {
      ghost var at, n := r.At(), |delivered|;
      var line, raw := NextLine(r, limit);
      if raw == Over {
        OverStep(r.input, at, n, line, r.size, limit, r.early);
        return TooLong, delivered;
      }
      if raw == Line {
        LineStep(r.input, at, n, line);
      } else {
        assert r.input[at..] == line;
        TailStep(r.input, at, n);
      }
      if |line| > 0 {
        var trimmed := TrimLine(line);
        Deliver(lines, delivered, line, r.size, limit, r.early);
        Onward(fn, delivered, trimmed);
        delivered := delivered + [trimmed];
        var refusal := fn(delivered);
        if refusal.Some? {
          return Stopped(refusal.value), delivered;
        }
      }
      if raw == Tail {
        return if r.end == Eof then Done else ReadError(r.end.error), delivered;
      }
    }
  }

  /* ---- What it means for the caller ---- */

  /** No line whose content is within the limit is rejected, and every line longer than the limit plus
      one buffer is, however the bytes arrive. */
  lemma LimitsHold(line: string, size: nat, limit: nat, early: bool)
    requires size > 0
    ensures Content(line) <= limit ==> !Rejected(line, size, limit, early)
    ensures Content(line) > limit + size ==> Rejected(line, size, limit, early)
  {
  }

  lemma DeliversPrefix(lines: seq<string>, a: seq<string>, b: seq<string>)
    requires Delivers(lines, a) && Delivers(lines, b) && |a| <= |b|
    ensures b[..|a|] == a
  {
    forall k | 0 <= k < |a| ensures a[k] == b[k] {
      assert a[k] == Trimmed(lines[k]);
    }
  }

  /** Neither the outcome nor what is delivered depends on how the source cuts up the bytes; on when it
      announces the end they depend only if the input ends in a borderline line. */
  lemma Deterministic(input: string, end: End, e1: bool, e2: bool, size: nat, limit: nat, fn: Callback,
                      o1: Outcome, d1: seq<string>, o2: Outcome, d2: seq<string>)
    requires size > 0 && (e1 == e2 || forall l :: l in Lines(input) ==> !Borderline(l, size, limit))
    requires Reads(input, end, e1, size, limit, fn, o1, d1) && Reads(input, end, e2, size, limit, fn, o2, d2)
    ensures o1 == o2 && d1 == d2
  {
    hide Lines, Content, Trimmed;
    if |d1| <= |d2| {
      Shorter(input, end, e1, e2, size, limit, fn, o1, d1, o2, d2);
    } else {
      Shorter(input, end, e2, e1, size, limit, fn, o2, d2, o1, d1);
    }
  }

  lemma Shorter(input: string, end: End, e1: bool, e2: bool, size: nat, limit: nat, fn: Callback,
                o1: Outcome, d1: seq<string>, o2: Outcome, d2: seq<string>)
    requires size > 0 && (e1 == e2 || forall l :: l in Lines(input) ==> !Borderline(l, size, limit))
    requires Reads(input, end, e1, size, limit, fn, o1, d1) && Reads(input, end, e2, size, limit, fn, o2, d2)
    requires |d1| <= |d2|
    ensures o1 == o2 && d1 == d2
  {
    hide Lines, Content, Trimmed, Borderline;
    DeliversPrefix(Lines(input), d1, d2);
    if |d1| == |d2| {
      assert d2[..|d1|] == d2;
      assert |d1| > 0 ==> d1[..|d1|] == d1;
    }
  }

  /** One byte, a buffer of one byte and no room for more: both outcomes are reached. */
  method BorderlineRun(early: bool) returns (outcome: Outcome, delivered: seq<string>)
    ensures early ==> outcome == Done && delivered == ["a"]
    ensures !early ==> outcome == TooLong && delivered == []
  {
    var r := new BufReader("a", Eof, early, 1);
    var accept: Callback := _ => None;
    outcome, delivered := ReadLines(r, 0, accept);
    LastLine("a");
    assert Lines("a") == ["a"] && Reach(1, 0) == 1;
    assert Trimmed("a") == "a";
    assert Rejected("a", 1, 0, early) == !early;
    if delivered != [] {
      assert delivered[0] == "a" && !Rejected(Lines("a")[0], 1, 0, early);
      assert delivered == ["a"];
    }
  }
}
