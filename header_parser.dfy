/**
 * The parser for `OTEL_EXPORTER_OTLP_HEADERS`, a list written
 * `key1=value1,key2=value2`: split on `,`, split each segment on its first
 * `=`, trim both halves, drop segments without `=`; a later key overwrites
 * an earlier one.
 */
module HeaderParser {
  import opened Wrappers
  import opened Strings

  type HeaderMap = map<string, string>

  /**
   * The header a segment contributes: for a segment holding `=`, the trimmed
   * text before its first `=` and the trimmed text after it (which may hold
   * further `=`); nothing for a segment without `=`.
   */
  function PairOf(segment: string): (p: Option<(string, string)>)
    ensures p.Some? <==> '=' in segment
  {
    if '=' in segment then
      var (key, value) := SplitFirst(segment, '=');
      Some((Trim(key), Trim(value)))
    else None
  }

  /** The headers of all segments, in order. */
  function PairsOf(segments: seq<string>): (r: seq<Option<(string, string)>>)
    ensures |r| == |segments|
    ensures forall j :: 0 <= j < |segments| ==> r[j] == PairOf(segments[j])
  {
    seq(|segments|, j requires 0 <= j < |segments| => PairOf(segments[j]))
  }

  /** The `j`-th pair sets `key`. */
  predicate SetsKey(pairs: seq<Option<(string, string)>>, j: int, key: string) {
    0 <= j < |pairs| && pairs[j].Some? && pairs[j].value.0 == key
  }

  /** The map after the loop has inserted `pairs` in order, starting from `{}`. */
  function HeadersOf(pairs: seq<Option<(string, string)>>): HeaderMap
  {
    if pairs == [] then map[]
    else
      var headers := HeadersOf(pairs[..|pairs| - 1]);
      match pairs[|pairs| - 1]
      case Some((key, value)) => headers[key := value]
      case None => headers
  }

  /** The headers the generic adapter derives from the variable's value. */
  function ParseHeaderList(s: string): (r: HeaderMap)
    ensures s == "" ==> r == map[]
  {
    if s == "" then map[] else HeadersOf(PairsOf(Split(s, ',')))
  }

  /** The loop of the generic adapter, filling a dictionary segment by segment. */
  method ParseHeaders(s: string) returns (headers: HeaderMap)
    ensures headers == ParseHeaderList(s)
  {
    headers := map[];
    if s != "" {
      var segments := Split(s, ',');
      ghost var pairs := PairsOf(segments);
      for i := 0 to |segments|
        invariant headers == HeadersOf(pairs[..i])
      {
        var segment := segments[i];
        if '=' in segment {
          var (key, value) := SplitFirst(segment, '=');
          headers := headers[Trim(key) := Trim(value)];
        }
        assert pairs[..i + 1][..i] == pairs[..i];
      }
      assert pairs[..|segments|] == pairs;
    }
  }

  /** One more pair sets its key on top of the map built so far. */
  lemma HeadersOfLast(pairs: seq<Option<(string, string)>>, key: string)
    requires pairs != []
    ensures var n := |pairs| - 1;
      && (key in HeadersOf(pairs) <==> key in HeadersOf(pairs[..n]) || SetsKey(pairs, n, key))
      && (SetsKey(pairs, n, key) ==> HeadersOf(pairs)[key] == pairs[n].value.1)
      && (!SetsKey(pairs, n, key) && key in HeadersOf(pairs) ==> HeadersOf(pairs)[key] == HeadersOf(pairs[..n])[key])
  {
  }

  /** A key is present exactly when some pair sets it. */
  lemma {:induction false} HeadersOfKeys(pairs: seq<Option<(string, string)>>, key: string)
    ensures key in HeadersOf(pairs) <==> exists j :: SetsKey(pairs, j, key)
    decreases |pairs|
  {
    if pairs != [] {
      var n := |pairs| - 1;
      var init := pairs[..n];
      HeadersOfKeys(init, key);
      HeadersOfLast(pairs, key);
      if key in HeadersOf(pairs) {
        if !SetsKey(pairs, n, key) {
          var j :| SetsKey(init, j, key);
          assert SetsKey(pairs, j, key);
        }
      } else {
        forall j | SetsKey(pairs, j, key) ensures false {
          assert j < n && SetsKey(init, j, key);
        }
      }
    }
  }

  /** The value of a key is the one given by the last pair that sets it. */
  lemma {:induction false} HeadersOfLastWins(pairs: seq<Option<(string, string)>>, j: nat, key: string)
    requires SetsKey(pairs, j, key)
    requires forall i :: j < i ==> !SetsKey(pairs, i, key)
    ensures key in HeadersOf(pairs) && HeadersOf(pairs)[key] == pairs[j].value.1
    decreases |pairs|
  {
    var n := |pairs| - 1;
    var init := pairs[..n];
    HeadersOfLast(pairs, key);
    if j < n {
      assert SetsKey(init, j, key);
      forall i | j < i ensures !SetsKey(init, i, key) {
        if i < n {
          assert init[i] == pairs[i] && !SetsKey(pairs, i, key);
        }
      }
      HeadersOfLastWins(init, j, key);
    }
  }

  /**
   * The guard `if headers_str:` changes nothing: the empty string splits into
   * the single segment `""`, which holds no `=`.
   */
  lemma ParseHeaderListIsFold(s: string)
    ensures ParseHeaderList(s) == HeadersOf(PairsOf(Split(s, ',')))
  {
    if s == "" {
      var pairs := PairsOf(Split(s, ','));
      assert pairs == [None];
      assert pairs[..0] == [];
    }
  }

  /**
   * For any input, the keys of the result are exactly the keys of the
   * segments that hold `=`.
   */
  lemma ParseHeaderListKeys(s: string, key: string)
    ensures key in ParseHeaderList(s) <==> exists j :: SetsKey(PairsOf(Split(s, ',')), j, key)
  {
    ParseHeaderListIsFold(s);
    HeadersOfKeys(PairsOf(Split(s, ',')), key);
  }

  /** For any input, a key's value is the value of the last segment with that key. */
  lemma ParseHeaderListValue(s: string, j: nat, key: string)
    requires SetsKey(PairsOf(Split(s, ',')), j, key)
    requires forall i :: j < i ==> !SetsKey(PairsOf(Split(s, ',')), i, key)
    ensures key in ParseHeaderList(s) && ParseHeaderList(s)[key] == PairsOf(Split(s, ','))[j].value.1
  {
    ParseHeaderListIsFold(s);
    HeadersOfLastWins(PairsOf(Split(s, ',')), j, key);
  }

  /** A segment `k=v` whose `k` holds no `=` contributes the header `trim(k)`: `trim(v)`. */
  lemma PairOfSegment(key: string, value: string)
    requires '=' !in key
    ensures PairOf(key + "=" + value) == Some((Trim(key), Trim(value)))
  {
    var segment := key + "=" + value;
    assert segment[|key|] == '=';
    var (k, v) := SplitFirst(segment, '=');
    assert k == segment[..|k|] == key;
    assert v == segment[|k| + 1..] == value;
  }
}

module HeaderParserExamples {
  import opened Wrappers
  import opened Strings
  import opened HeaderParser

  /** Parsing segments joined with `,` folds over exactly those segments. */
  lemma ParseJoined(segments: seq<string>)
    requires |segments| >= 1
    requires forall k :: 0 <= k < |segments| ==> ',' !in segments[k]
    ensures ParseHeaderList(Join(segments, ',')) == HeadersOf(PairsOf(segments))
  {
    SplitJoin(segments, ',');
    ParseHeaderListIsFold(Join(segments, ','));
  }

  /** The fold over two pairs. */
  lemma HeadersOfTwo(first: Option<(string, string)>, second: (string, string))
    ensures HeadersOf([first, Some(second)])
            == (if first.Some? then map[first.value.0 := first.value.1] else map[])[second.0 := second.1]
  {
    var pairs := [first, Some(second)];
    var one := [first];
    assert one[..0] == [];
    assert HeadersOf(one) == if first.Some? then map[first.value.0 := first.value.1] else map[];
    assert pairs[..1] == one;
  }

  /**
   * `"k1=v1,k2=v2"` gives `{k1: v1, k2: v2}` after trimming; when the two keys
   * coincide, the second value wins.
   */
  lemma TwoPairs(k1: string, v1: string, k2: string, v2: string)
    requires ',' !in k1 && ',' !in v1 && ',' !in k2 && ',' !in v2
    requires '=' !in k1 && '=' !in k2
    ensures ParseHeaderList(k1 + "=" + v1 + "," + k2 + "=" + v2)
            == map[Trim(k1) := Trim(v1)][Trim(k2) := Trim(v2)]
  {
    var a, b := k1 + "=" + v1, k2 + "=" + v2;
    assert Join([a, b], ',') == k1 + "=" + v1 + "," + k2 + "=" + v2;
    assert ',' !in a && ',' !in b;
    ParseJoined([a, b]);
    PairOfSegment(k1, v1);
    PairOfSegment(k2, v2);
    assert PairsOf([a, b]) == [Some((Trim(k1), Trim(v1))), Some((Trim(k2), Trim(v2)))];
    HeadersOfTwo(Some((Trim(k1), Trim(v1))), (Trim(k2), Trim(v2)));
  }

  /** `"bad,k=v"` gives `{k: v}`: the segment without `=` is dropped. */
  lemma MalformedSegmentDropped(bad: string, k: string, v: string)
    requires ',' !in bad && '=' !in bad
    requires ',' !in k && ',' !in v && '=' !in k
    ensures ParseHeaderList(bad + "," + k + "=" + v) == map[Trim(k) := Trim(v)]
  {
    var b := k + "=" + v;
    assert Join([bad, b], ',') == bad + "," + k + "=" + v;
    assert ',' !in b;
    ParseJoined([bad, b]);
    PairOfSegment(k, v);
    assert PairsOf([bad, b]) == [None, Some((Trim(k), Trim(v)))];
    HeadersOfTwo(None, (Trim(k), Trim(v)));
  }
}
