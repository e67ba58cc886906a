/** The options of a mount: read-only first if asked for, then the volume's flags, each once. */
module MountOptions {
  import opened Parameters

  /** The elements at their first occurrences, in order. */
  function Dedup(s: seq<string>): seq<string> {
    if s == [] then [] else
      var front := Dedup(s[..|s| - 1]);
      if s[|s| - 1] in front then front else front + [s[|s| - 1]]
  }

  function FirstIndex(s: seq<string>, x: string): nat
    requires x in s
  {
    if s[0] == x then 0 else 1 + FirstIndex(s[1..], x)
  }

  lemma {:induction false} FirstIndexIsFirst(s: seq<string>, x: string)
    requires x in s
    ensures FirstIndex(s, x) < |s| && s[FirstIndex(s, x)] == x && x !in s[..FirstIndex(s, x)]
  {
    if s[0] != x {
      FirstIndexIsFirst(s[1..], x);
      assert s[..FirstIndex(s, x)] == [s[0]] + s[1..][..FirstIndex(s[1..], x)];
    }
  }

  lemma {:induction false} FirstIndexOfPrefix(s: seq<string>, x: string, y: string)
    requires x in s
    ensures FirstIndex(s + [y], x) == FirstIndex(s, x)
  {
    if s[0] != x {
      assert (s + [y])[1..] == s[1..] + [y];
      FirstIndexOfPrefix(s[1..], x, y);
    }
  }

  lemma {:induction false} FirstIndexOfLast(s: seq<string>, y: string)
    requires y !in s
    ensures FirstIndex(s + [y], y) == |s|
  {
    if s != [] {
      assert (s + [y])[1..] == s[1..] + [y];
      FirstIndexOfLast(s[1..], y);
    }
  }

  /** Deduplication keeps every element, none twice, in the order in which they first occur. */
  lemma {:induction false} DedupKeepsFirstOccurrences(s: seq<string>)
    ensures forall x :: x in Dedup(s) <==> x in s
    ensures forall i, j | 0 <= i < j < |Dedup(s)| :: Dedup(s)[i] != Dedup(s)[j]
    ensures forall i, j | 0 <= i < j < |Dedup(s)| :: FirstIndex(s, Dedup(s)[i]) < FirstIndex(s, Dedup(s)[j])
  {
    if s != [] {
      var front, last := s[..|s| - 1], s[|s| - 1];
      DedupKeepsFirstOccurrences(front);
      assert s == front + [last];
      forall x | x in front ensures FirstIndex(s, x) == FirstIndex(front, x) < |front| {
        FirstIndexOfPrefix(front, x, last);
        FirstIndexIsFirst(front, x);
      }
      if last !in front {
        FirstIndexOfLast(front, last);
      }
      assert forall i | 0 <= i < |Dedup(front)| :: Dedup(front)[i] in Dedup(front);
      forall i, j | 0 <= i < j < |Dedup(s)|
        ensures Dedup(s)[i] != Dedup(s)[j] && FirstIndex(s, Dedup(s)[i]) < FirstIndex(s, Dedup(s)[j])
      {
        assert Dedup(s)[i] == Dedup(front)[i] && Dedup(s)[i] in front;
        if j < |Dedup(front)| {
          assert Dedup(s)[j] == Dedup(front)[j] && Dedup(s)[j] in front;
        }
      }
    }
  }

  lemma DedupNext(s: seq<string>, x: string)
    ensures Dedup(s + [x]) == if x in Dedup(s) then Dedup(s) else Dedup(s) + [x]
  {
    assert (s + [x])[..|s|] == s;
  }

  function Wanted(readOnly: bool, flags: seq<string>): seq<string> {
    (if readOnly then ["ro"] else []) + flags
  }

  lemma WantedNothing(readOnly: bool)
    ensures Wanted(readOnly, []) == if readOnly then ["ro"] else []
    ensures Dedup(Wanted(readOnly, [])) == Wanted(readOnly, [])
  {
    if readOnly {
      DedupNext([], "ro");
      assert Wanted(true, []) == [] + ["ro"];
    }
  }

  lemma WantedNext(readOnly: bool, flags: seq<string>, i: nat)
    requires i < |flags|
    ensures Wanted(readOnly, flags[..i + 1]) == Wanted(readOnly, flags[..i]) + [flags[i]]
  {
    assert flags[..i + 1] == flags[..i] + [flags[i]];
  }

  method HasOption(options: seq<string>, opt: string) returns (found: bool)
    ensures found <==> opt in options
  {
    for i := 0 to |options|
      invariant opt !in options[..i]
    {
      if options[i] == opt {
        return true;
      }
    }
    return false;
  }

  /** `flags` is absent when the volume is not of the mounted kind. */
  method Merge(readOnly: bool, flags: Option<seq<string>>) returns (options: seq<string>)
    ensures options == Dedup(Wanted(readOnly, if flags.Some? then flags.value else []))
    ensures forall x :: x in options <==> (readOnly && x == "ro") || (flags.Some? && x in flags.value)
    ensures forall i, j | 0 <= i < j < |options| :: options[i] != options[j]
    ensures var given := (if readOnly then ["ro"] else []) + if flags.Some? then flags.value else [];
            && (forall i | 0 <= i < |options| :: options[i] in given)
            && forall i, j | 0 <= i < j < |options| :: FirstIndex(given, options[i]) < FirstIndex(given, options[j])
  {
    DedupKeepsFirstOccurrences(Wanted(readOnly, if flags.Some? then flags.value else []));
    options := if readOnly then ["ro"] else [];
    WantedNothing(readOnly);
    if flags.Some? {
      var fs := flags.value;
      for i := 0 to |fs|
        invariant options == Dedup(Wanted(readOnly, fs[..i]))
      {
        WantedNext(readOnly, fs, i);
        DedupNext(Wanted(readOnly, fs[..i]), fs[i]);
        var has := HasOption(options, fs[i]);
        if !has {
          options := options + [fs[i]];
        }
      }
      assert fs[..|fs|] == fs;
    }
  }
}
