/** Strings, optional values and the few sequence facts every component needs.
    A Go string is a byte sequence; a `char` here stands for one byte. */
module Text {
  datatype Option<+T> = None | Some(value: T)

  /** All pieces in order, as a bytes.Buffer collects them. */
  function Concat(pieces: seq<string>): string {
    if pieces == [] then "" else Concat(pieces[..|pieces| - 1]) + pieces[|pieces| - 1]
  }

  lemma ConcatSnoc(pieces: seq<string>, last: string)
    ensures Concat(pieces + [last]) == Concat(pieces) + last
  {
    assert (pieces + [last])[..|pieces|] == pieces;
  }

  lemma ConcatNone()
    ensures Concat([]) == ""
  {
  }

  lemma ConcatOne(s: string)
    ensures Concat([s]) == s
  {
    ConcatSnoc([], s);
  }

  /** The frames that are not dropped, in order. */
  function Without<F>(frames: seq<F>, dropped: F -> bool): seq<F> {
    if frames == [] then [] else
      Without(frames[..|frames| - 1], dropped)
      + if dropped(frames[|frames| - 1]) then [] else [frames[|frames| - 1]]
  }

  lemma WithoutSnoc<F>(frames: seq<F>, f: F, dropped: F -> bool)
    ensures Without(frames + [f], dropped) == Without(frames, dropped) + if dropped(f) then [] else [f]
  {
    assert (frames + [f])[..|frames|] == frames;
  }

  predicate IsSpace(c: char) {
    c == ' ' || c == '\t' || c == '\n' || c == '\r' || c == '\U{0b}' || c == '\U{0c}'
  }

  function TrimLeft(s: string): (r: string)
    ensures |r| <= |s|
    ensures r != "" ==> !IsSpace(r[0])
  {
    if s != "" && IsSpace(s[0]) then TrimLeft(s[1..]) else s
  }

  function TrimRight(s: string): (r: string)
    ensures r <= s
    ensures r != "" ==> !IsSpace(r[|r| - 1])
  {
    if s != "" && IsSpace(s[|s| - 1]) then TrimRight(s[..|s| - 1]) else s
  }

  /** bytes.TrimSpace on ASCII white space. */
  function Trim(s: string): (r: string)
    ensures |r| <= |s|
    ensures r != "" ==> !IsSpace(r[0]) && !IsSpace(r[|r| - 1])
  {
    TrimRight(TrimLeft(s))
  }

  lemma TrimFixed(s: string)
    requires s == "" || (!IsSpace(s[0]) && !IsSpace(s[|s| - 1]))
    ensures Trim(s) == s
  {
  }

  function OrDefault(s: string, fallback: string): string {
    if s == "" then fallback else s
  }

  lemma Prefix3<T>(a: seq<T>, b: seq<T>, c: seq<T>)
    requires a <= b <= c
    ensures a <= c
  {
  }

  lemma PrefixSnoc<T>(a: seq<T>, b: seq<T>, c: seq<T>)
    requires a <= b
    ensures a <= b + c
  {
  }

  lemma Assoc3<T>(a: seq<T>, b: seq<T>, c: seq<T>)
    ensures a + b + c == a + (b + c)
  {
  }

  lemma Assoc4<T>(a: seq<T>, b: seq<T>, c: seq<T>, d: seq<T>)
    ensures a + (b + (c + d)) == a + b + c + d
  {
  }
}
