/** Go pointers, strings and slices as values.

    A Go pointer is an `Option`; a Go slice is an `Option<seq>` because a nil slice and an
    empty slice are different values (`reflect.DeepEqual` tells them apart). */
module Common {

  datatype Option<+T> = None | Some(value: T)

  type Slice<+T> = Option<seq<T>>

  /** `*p`, or the zero string when `p` is nil. */
  function Deref(p: Option<string>): string {
    if p.Some? then p.value else ""
  }

  /** Set only when the string is non-empty; the usual down-conversion of a string. */
  function Ptr(s: string): Option<string> {
    if s == "" then None else Some(s)
  }

  /** `p != nil && *p != ""`. */
  predicate Has(p: Option<string>) {
    p.Some? && p.value != ""
  }

  /** Ranging over a nil slice visits nothing. */
  function Elems<T>(s: Slice<T>): seq<T> {
    if s.None? then [] else s.value
  }

  /** What a Go slice built only by `append` from nil holds. */
  function Appended<T>(s: seq<T>): Slice<T> {
    if s == [] then None else Some(s)
  }

  function Map<A, B>(f: A -> B, s: seq<A>): (r: seq<B>)
    ensures |r| == |s|
    ensures forall i :: 0 <= i < |s| ==> r[i] == f(s[i])
  {
    seq(|s|, i requires 0 <= i < |s| => f(s[i]))
  }

  /** `if in != nil { make(len); index-assign } else { nil }`. */
  function MapSlice<A, B>(f: A -> B, s: Slice<A>): Slice<B> {
    if s.None? then None else Some(Map(f, s.value))
  }

  /** The loop that skips nil entries and dereferences the others. */
  function NonNil<A>(s: seq<Option<A>>): (r: seq<A>)
    ensures |r| <= |s|
  {
    if s == [] then []
    else (if s[0].Some? then [s[0].value] else []) + NonNil(s[1..])
  }

  /** A list of freshly taken addresses has no nil entry to drop. */
  lemma {:induction false} NonNilOfAddresses<A, B>(f: A -> Option<B>, g: A -> B, s: seq<A>)
    requires forall i :: 0 <= i < |s| ==> f(s[i]) == Some(g(s[i]))
    ensures NonNil(Map(f, s)) == Map(g, s)
  {
    if s != [] {
      assert Map(f, s)[1..] == Map(f, s[1..]);
      NonNilOfAddresses(f, g, s[1..]);
    }
  }

  lemma {:induction false} NonNilAppend<A>(s: seq<Option<A>>, x: Option<A>)
    ensures NonNil(s + [x]) == NonNil(s) + (if x.Some? then [x.value] else [])
  {
    if s == [] {
      assert s + [x] == [x];
    } else {
      var first := if s[0].Some? then [s[0].value] else [];
      var last := if x.Some? then [x.value] else [];
      assert (s + [x])[0] == s[0] && (s + [x])[1..] == s[1..] + [x];
      assert NonNil(s + [x]) == first + NonNil(s[1..] + [x]);
      NonNilAppend(s[1..], x);
      assert first + (NonNil(s[1..]) + last) == first + NonNil(s[1..]) + last;
    }
  }

  /** A down-then-up trip keeps a list exactly when it keeps each element. */
  lemma MapTrip<A, B>(up: B -> A, down: A -> B, kept: A -> bool, s: seq<A>)
    requires forall i :: 0 <= i < |s| ==> (up(down(s[i])) == s[i] <==> kept(s[i]))
    ensures Map(up, Map(down, s)) == s <==> forall i :: 0 <= i < |s| ==> kept(s[i])
  {
    var again := Map(up, Map(down, s));
    assert forall i :: 0 <= i < |s| ==> again[i] == up(down(s[i]));
    if again == s {
      forall i | 0 <= i < |s| ensures kept(s[i]) {
        assert again[i] == s[i];
        assert up(down(s[i])) == s[i];
      }
    }
  }

  /** Every index-assign and append loop of the converters: element `i` of the output is the
      converted element `i` of the input. */
  method ConvertEach<A, B>(f: A -> B, input: seq<A>) returns (out: seq<B>)
    ensures out == Map(f, input)
  {
    out := [];
    var i := 0;
    while i < |input|
      invariant 0 <= i <= |input|
      invariant |out| == i
      invariant forall k :: 0 <= k < i ==> out[k] == f(input[k])
    {
      out := out + [f(input[i])];
      i := i + 1;
    }
  }

  /** The loops over slices of pointers: nil entries are skipped. */
  method AppendNonNil<A>(input: seq<Option<A>>) returns (out: seq<A>)
    ensures out == NonNil(input)
  {
    out := [];
    var i := 0;
    while i < |input|
      invariant 0 <= i <= |input|
      invariant out == NonNil(input[..i])
    {
      NonNilAppend(input[..i], input[i]);
      assert input[..i + 1] == input[..i] + [input[i]];
      if input[i].Some? {
        out := out + [input[i].value];
      }
      i := i + 1;
    }
    assert input[..i] == input;
  }
}
