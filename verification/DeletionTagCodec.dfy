/** Deletion tags: the escaping of JSON text into the characters a resource tag may hold, and back. */
module DeletionTagCodec {
  import opened Strings

  // ---------- The two six-pass functions ----------

  function EncodeDeletionTag(input: string): string {
    var s0 := ReplaceAll(input, "\"", " @ ");
    var s1 := ReplaceAll(s0, ",", " . ");
    var s2 := ReplaceAll(s1, "[", " - ");
    var s3 := ReplaceAll(s2, "]", " _ ");
    var s4 := ReplaceAll(s3, "{", " + ");
    ReplaceAll(s4, "}", " = ")
  }

  function DecodeDeletionTag(input: string): string {
    var s0 := ReplaceAll(input, " @ ", "\"");
    var s1 := ReplaceAll(s0, " . ", ",");
    var s2 := ReplaceAll(s1, " - ", "[");
    var s3 := ReplaceAll(s2, " _ ", "]");
    var s4 := ReplaceAll(s3, " + ", "{");
    ReplaceAll(s4, " = ", "}")
  }

  // ---------- Ranks: the pass in which a character takes part ----------

  type Pass = k: nat | k < 6

  function JsonChar(k: Pass): char {
    match k case 0 => '"' case 1 => ',' case 2 => '[' case 3 => ']' case 4 => '{' case 5 => '}'
  }

  function TagChar(k: Pass): char {
    match k case 0 => '@' case 1 => '.' case 2 => '-' case 3 => '_' case 4 => '+' case 5 => '='
  }

  function Token(k: Pass): string {
    [' ', TagChar(k), ' ']
  }

  /** The pass that rewrites a JSON character, or 6 for every other character. */
  function Rank(c: char): (k: nat)
    ensures k <= 6
    ensures k < 6 ==> c == JsonChar(k)
    ensures k == 6 ==> forall j: Pass :: c != JsonChar(j)
  {
    match c case '"' => 0 case ',' => 1 case '[' => 2 case ']' => 3 case '{' => 4 case '}' => 5 case _ => 6
  }

  /** `w` with the JSON characters of rank `lo` to `hi - 1` written as tokens and all others left alone. */
  function Expand(w: string, lo: nat, hi: nat): string
    requires hi <= 6
  {
    if w == "" then ""
    else (if lo <= Rank(w[0]) < hi then Token(Rank(w[0])) else [w[0]]) + Expand(w[1..], lo, hi)
  }

  function EncodePass(k: Pass, s: string): string {
    ReplaceAll(s, [JsonChar(k)], Token(k))
  }

  function DecodePass(k: Pass, s: string): string {
    ReplaceAll(s, Token(k), [JsonChar(k)])
  }

  /** Decode passes `k` to 5. */
  function DecodeFrom(k: nat, s: string): string
    requires k <= 6
    decreases 6 - k
  {
    if k == 6 then s else DecodeFrom(k + 1, DecodePass(k, s))
  }

  lemma DecodeIsSixPasses(s: string)
    ensures DecodeDeletionTag(s) == DecodeFrom(0, s)
  {
    var s0 := DecodePass(0, s);
    var s1 := DecodePass(1, s0);
    var s2 := DecodePass(2, s1);
    var s3 := DecodePass(3, s2);
    var s4 := DecodePass(4, s3);
    assert DecodeFrom(4, s3) == DecodeFrom(5, s4) == DecodePass(5, s4);
    assert DecodeFrom(2, s1) == DecodeFrom(3, s2) == DecodeFrom(4, s3);
  }

  // ---------- Encoding is a one-pass homomorphism ----------

  lemma {:induction false} EncodePassExpands(w: string, k: Pass)
    ensures EncodePass(k, Expand(w, 0, k)) == Expand(w, 0, k + 1)
  {
    if w != "" {
      var rest := Expand(w[1..], 0, k);
      EncodePassExpands(w[1..], k);
      if Rank(w[0]) < k {
        var j: Pass := Rank(w[0]);
        assert Expand(w, 0, k) == [' '] + ([TagChar(j)] + ([' '] + rest));
        assert ([' '] + rest)[1..] == rest;
        assert ([TagChar(j)] + ([' '] + rest))[1..] == [' '] + rest;
        assert Expand(w, 0, k)[1..] == [TagChar(j)] + ([' '] + rest);
        assert EncodePass(k, [' '] + rest) == [' '] + EncodePass(k, rest);
        assert EncodePass(k, [TagChar(j)] + ([' '] + rest)) == [TagChar(j)] + EncodePass(k, [' '] + rest);
      } else {
        assert Expand(w, 0, k)[1..] == rest;
        assert Expand(w, 0, k)[..1] == [w[0]];
      }
    } else {
      assert EncodePass(k, "") == "";
    }
  }

  lemma {:induction false} ExpandNothing(w: string, k: nat)
    requires k <= 6
    ensures Expand(w, k, k) == w
  {
    if w != "" {
      ExpandNothing(w[1..], k);
    }
  }

  /** The six replacements together map each character on its own. */
  lemma EncodeIsHomomorphism(w: string)
    ensures EncodeDeletionTag(w) == Expand(w, 0, 6)
  {
    ExpandNothing(w, 0);
    EncodePassExpands(w, 0);
    EncodePassExpands(w, 1);
    EncodePassExpands(w, 2);
    EncodePassExpands(w, 3);
    EncodePassExpands(w, 4);
    EncodePassExpands(w, 5);
  }

  lemma {:induction false} ExpandConcat(a: string, b: string)
    ensures Expand(a + b, 0, 6) == Expand(a, 0, 6) + Expand(b, 0, 6)
  {
    if a == "" {
      assert a + b == b;
    } else {
      assert (a + b)[1..] == a[1..] + b;
      ExpandConcat(a[1..], b);
    }
  }

  /** Encoding goes character by character, and these are the six that change. */
  lemma EncodingByCharacter(a: string, b: string, c: char)
    ensures EncodeDeletionTag(a + b) == EncodeDeletionTag(a) + EncodeDeletionTag(b)
    ensures EncodeDeletionTag([c]) ==
      if c == '"' then " @ " else if c == ',' then " . " else if c == '[' then " - " else if c == ']' then " _ "
      else if c == '{' then " + " else if c == '}' then " = " else [c]
  {
    EncodeIsHomomorphism(a + b);
    EncodeIsHomomorphism(a);
    EncodeIsHomomorphism(b);
    ExpandConcat(a, b);
    EncodeIsHomomorphism([c]);
    assert [c][1..] == "";
    assert Expand([c], 0, 6) == if Rank(c) < 6 then Token(Rank(c)) else [c];
  }

  /** Number of JSON characters in `w`. */
  function Specials(w: string): nat {
    if w == "" then 0 else (if Rank(w[0]) < 6 then 1 else 0) + Specials(w[1..])
  }

  /** A tag value holds none of the six JSON characters, and grows by two characters for each one it escapes. */
  lemma {:induction false} EncodedAlphabetAndLength(w: string)
    ensures forall i | 0 <= i < |EncodeDeletionTag(w)| :: Rank(EncodeDeletionTag(w)[i]) == 6
    ensures |EncodeDeletionTag(w)| == |w| + 2 * Specials(w)
  {
    EncodeIsHomomorphism(w);
    ExpandedAlphabetAndLength(w);
  }

  lemma {:induction false} ExpandedAlphabetAndLength(w: string)
    ensures forall i | 0 <= i < |Expand(w, 0, 6)| :: Rank(Expand(w, 0, 6)[i]) == 6
    ensures |Expand(w, 0, 6)| == |w| + 2 * Specials(w)
  {
    if w != "" {
      ExpandedAlphabetAndLength(w[1..]);
    }
  }

  // ---------- When decoding undoes encoding ----------

  /** `c` stands for a space next to it while ranks `k` and up are still encoded. */
  predicate Blank(c: char, k: nat) {
    c == ' ' || k <= Rank(c) < 6
  }

  /** The literal tag character of rank `k` at `p` reads as a token of its own when pass `k` reaches it. */
  predicate StolenAt(w: string, p: nat, k: Pass) {
    1 <= p < |w| - 1 && w[p] == TagChar(k) && Blank(w[p - 1], k + 1) && Blank(w[p + 1], k)
  }

  /** No literal tag character stands between two characters whose encodings lend it their spaces. */
  predicate Unambiguous(w: string) {
    forall p, k: Pass | 0 <= p < |w| :: !StolenAt(w, p, k)
  }

  lemma StolenShifts(w: string, k: Pass, p: nat)
    requires 1 <= p < |w|
    ensures StolenAt(w, p + 1, k) == StolenAt(w[1..], p, k)
  {
  }

  /** What pass `k` does at the head of the text: nothing, when no token of rank `k` starts there. */
  lemma DecodePassSkips(k: Pass, c: char, s: string)
    requires c != ' ' || |s| < 2 || s[0] != TagChar(k) || s[1] != ' '
    ensures DecodePass(k, [c] + s) == [c] + DecodePass(k, s)
  {
    assert ([c] + s)[1..] == s;
    if |s| >= 2 {
      var head := ([c] + s)[..3];
      assert head[0] == c && head[1] == s[0] && head[2] == s[1];
    }
  }

  lemma DecodePassPlain(k: Pass, s: string)
    requires s != "" && (|s| < 3 || s[..3] != Token(k))
    ensures DecodePass(k, s) == [s[0]] + DecodePass(k, s[1..])
  {
  }

  lemma DecodePassMatches(k: Pass, s: string)
    ensures DecodePass(k, Token(k) + s) == [JsonChar(k)] + DecodePass(k, s)
  {
    assert (Token(k) + s)[3..] == s;
  }

  /** A token of another rank is passed over, up to its last space. */
  lemma DecodePassOtherToken(k: Pass, j: Pass, s: string)
    requires j != k
    ensures DecodePass(k, Token(j) + s) == [' ', TagChar(j)] + DecodePass(k, [' '] + s)
  {
    TagCharsDiffer(j, k);
    var t := [TagChar(j)] + ([' '] + s);
    assert Token(j) + s == [' '] + t;
    DecodePassSkips(k, ' ', t);
    DecodePassSkips(k, TagChar(j), [' '] + s);
    var rest := DecodePass(k, [' '] + s);
    assert [' '] + ([TagChar(j)] + rest) == [' ', TagChar(j)] + rest;
  }

  lemma TagCharsDiffer(j: Pass, k: Pass)
    requires j != k
    ensures TagChar(j) != TagChar(k) && TagChar(j) != ' '
  {
  }

  /** The first two characters of partly encoded text, read off the text itself. */
  lemma ExpandHead(w: string, k: Pass)
    ensures var e := Expand(w, k, 6);
            (|e| >= 2 && e[0] == TagChar(k) && e[1] == ' ') <==> (|w| >= 2 && w[0] == TagChar(k) && Blank(w[1], k))
  {
    if |w| >= 2 {
      assert Expand(w[1..], k, 6) == (if k <= Rank(w[1]) < 6 then Token(Rank(w[1])) else [w[1]]) + Expand(w[2..], k, 6);
    }
  }

  /** One character of the text, as it stands once pass `k` is done. */
  function Decoded(c: char, k: Pass): string {
    if k < Rank(c) < 6 then Token(Rank(c)) else [c]
  }

  /** Pass `k` treats a character correctly if the character after it is not ambiguous. */
  lemma DecodePassStep(w: string, k: Pass)
    requires w != "" && !StolenAt(w, 1, k)
    ensures DecodePass(k, Expand(w, k, 6)) == Decoded(w[0], k) + DecodePass(k, Expand(w[1..], k, 6))
  {
    var rest := Expand(w[1..], k, 6);
    ExpandHead(w[1..], k);
    var j := Rank(w[0]);
    if j == k {
      DecodePassMatches(k, rest);
    } else if k < j < 6 {
      DecodePassSkips(k, ' ', rest);
      DecodePassOtherToken(k, j, rest);
    } else {
      DecodePassSkips(k, w[0], rest);
    }
  }

  /** Pass `k` decodes rank `k` and nothing else, as long as no tag character of that rank is ambiguous. */
  lemma {:induction false} DecodePassExact(w: string, k: Pass)
    requires forall p | 0 <= p < |w| :: !StolenAt(w, p, k)
    ensures DecodePass(k, Expand(w, k, 6)) == Expand(w, k + 1, 6)
  {
    if w != "" {
      forall p | 0 <= p < |w[1..]| ensures !StolenAt(w[1..], p, k) {
        if p >= 1 { StolenShifts(w, k, p); }
      }
      DecodePassExact(w[1..], k);
      assert !StolenAt(w, 1, k);
      DecodePassStep(w, k);
    }
  }

  /** Decoding from pass `k` on recovers the text when no tag character of those ranks is ambiguous. */
  lemma {:induction false} DecodeFromExact(w: string, k: nat)
    requires k <= 6
    requires forall p, j: Pass | 0 <= p < |w| && k <= j :: !StolenAt(w, p, j)
    ensures DecodeFrom(k, Expand(w, k, 6)) == w
    decreases 6 - k
  {
    if k == 6 {
      ExpandNothing(w, 6);
    } else {
      DecodePassExact(w, k);
      DecodeFromExact(w, k + 1);
    }
  }

  // ---------- And when it does not ----------

  /** At an ambiguous character pass `k` writes a JSON character that the text does not have there. */
  lemma {:induction false} DecodePassSteals(w: string, k: Pass, v: nat) returns (p: nat, a: string, b: string)
    requires StolenAt(w, v, k)
    ensures p < |w| && w[p] == TagChar(k)
    ensures DecodePass(k, Expand(w, k, 6)) == a + [JsonChar(k)] + b
    ensures Count(JsonChar(k), a) == Count(JsonChar(k), w[..p])
    ensures Count(TagChar(k), a) == Count(TagChar(k), w[..p])
  {
    if StolenAt(w, 1, k) {
      p := 1;
      a, b := DecodePassStealsAtHead(w, k);
    } else {
      StolenShifts(w, k, v - 1);
      var p', a';
      p', a', b := DecodePassSteals(w[1..], k, v - 1);
      p := p' + 1;
      DecodePassStep(w, k);
      var head := Decoded(w[0], k);
      a := head + a';
      assert head + (a' + [JsonChar(k)] + b) == a + [JsonChar(k)] + b;
      CountConcat(JsonChar(k), head, a');
      CountConcat(TagChar(k), head, a');
      assert w[..p] == [w[0]] + w[1..][..p'];
      CountConcat(JsonChar(k), [w[0]], w[1..][..p']);
      CountConcat(TagChar(k), [w[0]], w[1..][..p']);
      DecodedCounts(w[0], k);
    }
  }

  lemma DecodePassStealsAtHead(w: string, k: Pass) returns (a: string, b: string)
    requires StolenAt(w, 1, k)
    ensures DecodePass(k, Expand(w, k, 6)) == a + [JsonChar(k)] + b
    ensures Count(JsonChar(k), a) == Count(JsonChar(k), w[..1])
    ensures Count(TagChar(k), a) == Count(TagChar(k), w[..1])
  {
    var rest := Expand(w[1..], k, 6);
    ExpandHead(w[1..], k);
    assert [' '] + rest == Token(k) + rest[2..];
    DecodePassMatches(k, rest[2..]);
    b := DecodePass(k, rest[2..]);
    assert w[..1] == [w[0]];
    if w[0] == ' ' {
      a := "";
    } else {
      var j: Pass := Rank(w[0]);
      a := [' ', TagChar(j)];
      DecodePassOtherToken(k, j, rest);
      assert a + ([JsonChar(k)] + b) == a + [JsonChar(k)] + b;
      assert a == [' '] + [TagChar(j)];
      CountConcat(JsonChar(k), [' '], [TagChar(j)]);
      CountConcat(TagChar(k), [' '], [TagChar(j)]);
    }
  }

  lemma DecodedCounts(c: char, k: Pass)
    ensures Count(JsonChar(k), Decoded(c, k)) == Count(JsonChar(k), [c])
    ensures Count(TagChar(k), Decoded(c, k)) == Count(TagChar(k), [c])
  {
    if k < Rank(c) < 6 {
      TokenCounts(Rank(c), JsonChar(k));
      TokenCounts(Rank(c), TagChar(k));
    }
  }

  lemma TokenCounts(j: Pass, c: char)
    requires c != ' ' && c != TagChar(j)
    ensures Count(c, Token(j)) == 0
  {
    assert Token(j) == [' '] + ([TagChar(j)] + [' ']);
    CountConcat(c, [TagChar(j)], [' ']);
    CountConcat(c, [' '], [TagChar(j)] + [' ']);
  }

  /** No match spans the beginning of text that starts with a character of no token. */
  lemma {:induction false} DecodePassPrefix(k: Pass, a: string, t: string)
    requires t != "" && t[0] != ' ' && t[0] != TagChar(k)
    ensures DecodePass(k, a + t) == DecodePass(k, a) + DecodePass(k, t)
    decreases |a|
  {
    if a == "" {
      assert a + t == t;
    } else if |a| >= 3 && a[..3] == Token(k) {
      assert a + t == Token(k) + (a[3..] + t) && a == Token(k) + a[3..];
      DecodePassMatches(k, a[3..] + t);
      DecodePassMatches(k, a[3..]);
      DecodePassPrefix(k, a[3..], t);
    } else {
      NoTokenAcross(k, a, t);
      DecodePassPlain(k, a + t);
      DecodePassPlain(k, a);
      assert (a + t)[1..] == a[1..] + t;
      DecodePassPrefix(k, a[1..], t);
    }
  }

  lemma NoTokenAcross(k: Pass, a: string, t: string)
    requires t != "" && t[0] != ' ' && t[0] != TagChar(k)
    requires a != "" && (|a| < 3 || a[..3] != Token(k))
    ensures |a + t| < 3 || (a + t)[..3] != Token(k)
  {
    if |a| >= 3 {
      assert (a + t)[..3] == a[..3];
    } else if |a + t| >= 3 {
      assert (a + t)[..3][|a|] == t[0];
    }
  }

  /** So both sides of such a character are decoded apart. */
  lemma DecodePassSplits(k: Pass, a: string, c: char, b: string)
    requires c != ' ' && c != TagChar(k)
    ensures DecodePass(k, a + [c] + b) == DecodePass(k, a) + [c] + DecodePass(k, b)
  {
    assert a + [c] + b == a + ([c] + b);
    DecodePassPrefix(k, a, [c] + b);
    DecodePassSkips(k, c, b);
  }

  lemma {:induction false} DecodePassCounts(k: Pass, c: char, s: string)
    requires c != ' ' && c != TagChar(k) && c != JsonChar(k)
    ensures Count(c, DecodePass(k, s)) == Count(c, s)
    decreases |s|
  {
    if |s| >= 3 && s[..3] == Token(k) {
      assert s == Token(k) + s[3..];
      DecodePassMatches(k, s[3..]);
      DecodePassCounts(k, c, s[3..]);
      CountConcat(c, Token(k), s[3..]);
      CountConcat(c, [JsonChar(k)], DecodePass(k, s[3..]));
      TokenCounts(k, c);
    } else if s != "" {
      assert s == [s[0]] + s[1..];
      DecodePassCounts(k, c, s[1..]);
    }
  }

  lemma {:induction false} DecodeFromSplits(k: nat, j: Pass, a: string, b: string)
    requires j < k <= 6
    ensures DecodeFrom(k, a + [JsonChar(j)] + b) == DecodeFrom(k, a) + [JsonChar(j)] + DecodeFrom(k, b)
    decreases 6 - k
  {
    if k < 6 {
      DecodePassSplits(k, a, JsonChar(j), b);
      DecodeFromSplits(k + 1, j, DecodePass(k, a), DecodePass(k, b));
    }
  }

  lemma {:induction false} DecodeFromCounts(k: nat, j: Pass, s: string)
    requires j < k <= 6
    ensures Count(JsonChar(j), DecodeFrom(k, s)) == Count(JsonChar(j), s)
    ensures Count(TagChar(j), DecodeFrom(k, s)) == Count(TagChar(j), s)
    decreases 6 - k
  {
    if k < 6 {
      DecodePassCounts(k, JsonChar(j), s);
      DecodePassCounts(k, TagChar(j), s);
      DecodeFromCounts(k + 1, j, DecodePass(k, s));
    }
  }

  /** Text in which a tag character sits where its rival has a JSON character cannot be that rival. */
  lemma MisplacedJsonChar(w: string, k: Pass, p: nat, a: string, b: string)
    requires p < |w| && w[p] == TagChar(k)
    requires Count(JsonChar(k), a) == Count(JsonChar(k), w[..p])
    requires Count(TagChar(k), a) == Count(TagChar(k), w[..p])
    ensures a + [JsonChar(k)] + b != w
  {
    var n := |a|;
    if a + [JsonChar(k)] + b == w {
      assert w[n] == JsonChar(k) && w[..n] == a;
      if n <= p {
        CountMember(JsonChar(k), w, n);
        CountMonotone(JsonChar(k), w, n + 1, p);
      } else {
        CountMember(TagChar(k), w, p);
        CountMonotone(TagChar(k), w, p + 1, n);
      }
      assert false;
    }
  }

  lemma DecodeFromBreaksAtOnce(w: string, k: Pass, v: nat)
    requires StolenAt(w, v, k)
    ensures DecodeFrom(k, Expand(w, k, 6)) != w
  {
    var p, a, b := DecodePassSteals(w, k, v);
    DecodeFromSplits(k + 1, k, a, b);
    DecodeFromCounts(k + 1, k, a);
    MisplacedJsonChar(w, k, p, DecodeFrom(k + 1, a), DecodeFrom(k + 1, b));
  }

  /** If pass `k` is the first with an ambiguous character, what that pass breaks is never repaired. */
  lemma {:induction false} DecodeFromBreaks(w: string, k: nat, v: nat, j: Pass)
    requires k <= j && StolenAt(w, v, j)
    ensures DecodeFrom(k, Expand(w, k, 6)) != w
    decreases 6 - k
  {
    if q :| 0 <= q < |w| && StolenAt(w, q, k) {
      DecodeFromBreaksAtOnce(w, k, q);
    } else {
      DecodePassExact(w, k);
      DecodeFromBreaks(w, k + 1, v, j);
    }
  }

  /** A deletion parameter survives its trip through a tag exactly when no tag character in it is ambiguous. */
  lemma CodecRoundTrip(w: string)
    ensures DecodeDeletionTag(EncodeDeletionTag(w)) == w <==> Unambiguous(w)
  {
    EncodeIsHomomorphism(w);
    DecodeIsSixPasses(Expand(w, 0, 6));
    if Unambiguous(w) {
      DecodeFromExact(w, 0);
    } else {
      var p, k: Pass :| 0 <= p < |w| && StolenAt(w, p, k);
      DecodeFromBreaks(w, 0, p, k);
    }
  }

  /** The shortest kind of failing value: a tag character between two JSON characters of later passes. */
  lemma CommaAtComma()
    ensures !Unambiguous(",@,")
    ensures DecodeDeletionTag(EncodeDeletionTag(",@,")) != ",@,"
  {
    assert StolenAt(",@,", 1, 0);
    CodecRoundTrip(",@,");
  }

  // ---------- Decoding text that was never encoded ----------

  predicate TokenAt(w: string, p: nat, k: Pass) {
    1 <= p < |w| - 1 && w[p - 1] == ' ' && w[p] == TagChar(k) && w[p + 1] == ' '
  }

  predicate TokenFree(w: string) {
    forall p, k: Pass | 0 <= p < |w| :: !TokenAt(w, p, k)
  }

  lemma {:induction false} DecodePassIdle(w: string, k: Pass)
    requires forall p | 0 <= p < |w| :: !TokenAt(w, p, k)
    ensures DecodePass(k, w) == w
  {
    if w != "" {
      forall p | 0 <= p < |w[1..]| ensures !TokenAt(w[1..], p, k) {
        assert !TokenAt(w, p + 1, k);
      }
      DecodePassIdle(w[1..], k);
      assert w == [w[0]] + w[1..];
      assert !TokenAt(w, 1, k);
      DecodePassSkips(k, w[0], w[1..]);
    }
  }

  lemma TokenAtHead(w: string, k: Pass)
    ensures TokenAt(w, 1, k) <==> |w| >= 3 && w[..3] == Token(k)
  {
    if |w| >= 3 {
      var head := w[..3];
      assert head[0] == w[0] && head[1] == w[1] && head[2] == w[2];
    }
  }

  /** A pass never adds a tag character of its rank, and drops one for every token it finds. */
  lemma {:induction false} DecodePassConsumes(w: string, k: Pass)
    ensures Count(TagChar(k), DecodePass(k, w)) <= Count(TagChar(k), w)
    ensures (exists p :: TokenAt(w, p, k)) ==> Count(TagChar(k), DecodePass(k, w)) < Count(TagChar(k), w)
    decreases |w|
  {
    TokenAtHead(w, k);
    if |w| >= 3 && w[..3] == Token(k) {
      assert w == Token(k) + w[3..];
      DecodePassMatches(k, w[3..]);
      DecodePassConsumes(w[3..], k);
      CountConcat(TagChar(k), Token(k), w[3..]);
      CountMember(TagChar(k), Token(k), 1);
      CountMonotone(TagChar(k), Token(k), 2, 3);
      assert Token(k)[..3] == Token(k);
    } else if w != "" {
      assert w == [w[0]] + w[1..];
      DecodePassConsumes(w[1..], k);
      if p: nat :| TokenAt(w, p, k) {
        assert TokenAt(w[1..], p - 1, k);
      }
    }
  }

  lemma {:induction false} DecodeFromIdle(w: string, k: nat)
    requires k <= 6
    requires forall p, j: Pass | 0 <= p < |w| && k <= j :: !TokenAt(w, p, j)
    ensures DecodeFrom(k, w) == w
    decreases 6 - k
  {
    if k < 6 {
      DecodePassIdle(w, k);
      DecodeFromIdle(w, k + 1);
    }
  }

  lemma {:induction false} DecodeFromChanges(w: string, k: nat, p: nat, j: Pass)
    requires k <= j && TokenAt(w, p, j)
    ensures DecodeFrom(k, w) != w
    decreases 6 - k
  {
    if q: nat :| TokenAt(w, q, k) {
      DecodePassConsumes(w, k);
      DecodeFromCounts(k + 1, k, DecodePass(k, w));
    } else {
      DecodePassIdle(w, k);
      DecodeFromChanges(w, k + 1, p, j);
    }
  }

  /** Text that was stored as it is comes back unchanged exactly when it holds none of the six tokens. */
  lemma DecodeUnencoded(w: string)
    ensures DecodeDeletionTag(w) == w <==> TokenFree(w)
  {
    DecodeIsSixPasses(w);
    if TokenFree(w) {
      DecodeFromIdle(w, 0);
    } else {
      var p, k: Pass :| 0 <= p < |w| && TokenAt(w, p, k);
      DecodeFromChanges(w, 0, p, k);
    }
  }

  lemma UnambiguousIsTokenFree(w: string)
    ensures Unambiguous(w) ==> TokenFree(w)
  {
    if Unambiguous(w) {
      forall p, k: Pass | 0 <= p < |w| ensures !TokenAt(w, p, k) {
        assert !StolenAt(w, p, k);
      }
    }
  }
}
