/** Environment-variable dictionaries and their one-line rendering,
    `env_dict_to_str` (appwrite_lab/automations/utils.py and its identical
    copy in appwrite_lab/playwright/utils.py). */
module EnvFormat {
  import opened Wrappers
  import opened PyStr

  /** A Python `dict[str, str]` in insertion order: a sequence of (key, value) entries. */
  type EnvMap = seq<(string, string)>

  function Keys(e: EnvMap): (ks: seq<string>)
    ensures |ks| == |e|
    ensures forall i :: 0 <= i < |e| ==> ks[i] == e[i].0
  {
    seq(|e|, i requires 0 <= i < |e| => e[i].0)
  }

  /** No key occurs twice, as in every Python dict. */
  predicate DistinctKeys(e: EnvMap)
  {
    forall i, j :: 0 <= i < j < |e| ==> e[i].0 != e[j].0
  }

  /** Python's `d.get(k)`. */
  function Lookup(e: EnvMap, k: string): (r: Option<string>)
    ensures r.None? <==> k !in Keys(e)
    ensures r.Some? ==> (k, r.value) in e
  {
    if e == [] then None
    else if e[|e| - 1].0 == k then Some(e[|e| - 1].1)
    else Lookup(e[..|e| - 1], k)
  }

  /** With distinct keys, the lookup of the i-th key finds the i-th value. */
  lemma {:induction false} LookupAt(e: EnvMap, i: nat)
    requires DistinctKeys(e) && i < |e|
    ensures Lookup(e, e[i].0) == Some(e[i].1)
  {
    if i < |e| - 1 {
      LookupAt(e[..|e| - 1], i);
    }
  }

  /** Python's `d[k] = v`: an existing key keeps its position and takes the new
      value, a new key goes to the end. */
  function Update(e: EnvMap, k: string, v: string): (r: EnvMap)
    requires DistinctKeys(e)
    ensures DistinctKeys(r)
    ensures Lookup(r, k) == Some(v)
    ensures forall k' :: k' != k ==> Lookup(r, k') == Lookup(e, k')
    ensures Keys(r) == if k in Keys(e) then Keys(e) else Keys(e) + [k]
  {
    if k in Keys(e) then
      ReplaceLookup(e, k, v);
      Replace(e, k, v)
    else
      AppendLookup(e, k, v);
      e + [(k, v)]
  }

  /** The entries of `e` with the value of key `k` replaced by `v`. */
  function Replace(e: EnvMap, k: string, v: string): (r: EnvMap)
    ensures |r| == |e|
    ensures forall i :: 0 <= i < |e| ==> r[i] == if e[i].0 == k then (k, v) else e[i]
  {
    seq(|e|, i requires 0 <= i < |e| => if e[i].0 == k then (k, v) else e[i])
  }

  lemma ReplaceLookup(e: EnvMap, k: string, v: string)
    requires DistinctKeys(e) && k in Keys(e)
    ensures var r := Replace(e, k, v);
      && DistinctKeys(r) && Keys(r) == Keys(e) && Lookup(r, k) == Some(v)
      && forall k' :: k' != k ==> Lookup(r, k') == Lookup(e, k')
  {
    var r := Replace(e, k, v);
    assert Keys(r) == Keys(e);
    var j :| 0 <= j < |e| && Keys(e)[j] == k;
    LookupAt(r, j);
    forall k' | k' != k ensures Lookup(r, k') == Lookup(e, k') {
      if k' in Keys(e) {
        var i :| 0 <= i < |e| && Keys(e)[i] == k';
        LookupAt(r, i);
        LookupAt(e, i);
      }
    }
  }

  lemma AppendLookup(e: EnvMap, k: string, v: string)
    requires DistinctKeys(e) && k !in Keys(e)
    ensures var r := e + [(k, v)];
      && DistinctKeys(r) && Keys(r) == Keys(e) + [k] && Lookup(r, k) == Some(v)
      && forall k' :: k' != k ==> Lookup(r, k') == Lookup(e, k')
  {
    var r := e + [(k, v)];
    assert r[..|r| - 1] == e;
    assert Keys(r) == Keys(e) + [k];
    forall i | 0 <= i < |e| ensures r[i].0 != k {
      assert Keys(e)[i] == e[i].0;
    }
  }

  /** Python's `{**a, **b}`: the entries of `a`, then those of `b`, later entries winning. */
  function Merge(a: EnvMap, b: EnvMap): (r: EnvMap)
    requires DistinctKeys(a)
    ensures DistinctKeys(r)
    decreases |b|
  {
    if b == [] then a else Update(Merge(a, b[..|b| - 1]), b[|b| - 1].0, b[|b| - 1].1)
  }

  /** A key of the merged dictionary takes its value from `b` when `b` has it, else from `a`. */
  lemma {:induction false} MergeLookup(a: EnvMap, b: EnvMap, k: string)
    requires DistinctKeys(a)
    ensures Lookup(Merge(a, b), k) == if k in Keys(b) then Lookup(b, k) else Lookup(a, k)
    decreases |b|
  {
    if b != [] {
      var init := b[..|b| - 1];
      var last := b[|b| - 1];
      assert Keys(b) == Keys(init) + [last.0];
      if k == last.0 {
        assert Lookup(b, k) == Some(last.1);
      } else {
        MergeLookup(a, init, k);
        assert Lookup(b, k) == Lookup(init, k);
      }
    }
  }

  /** The merged dictionary lists the keys of `a` first, in their order. */
  lemma {:induction false} MergeKeysPrefix(a: EnvMap, b: EnvMap)
    requires DistinctKeys(a)
    ensures |Merge(a, b)| >= |a|
    ensures Keys(Merge(a, b))[..|a|] == Keys(a)
    decreases |b|
  {
    if b != [] {
      MergeKeysPrefix(a, b[..|b| - 1]);
    }
  }

  /** One rendered entry, `key=value`, with no quoting. */
  function Segment(entry: (string, string)): string
  {
    entry.0 + "=" + entry.1
  }

  function Segments(e: EnvMap): (segs: seq<string>)
    ensures |segs| == |e|
    ensures forall i :: 0 <= i < |e| ==> segs[i] == Segment(e[i])
  {
    seq(|e|, i requires 0 <= i < |e| => Segment(e[i]))
  }

  /** `env_dict_to_str`: every entry as `key=value`, in insertion order,
      separated by single spaces. */
  function EnvDictToStr(e: EnvMap): (r: string)
    ensures r == "" <==> e == []
  {
    var segs := Segments(e);
    assert e != [] ==> |Join(" ", segs)| > 0 by {
      if e != [] {
        JoinLength(" ", segs);
        assert TotalLength(segs) >= |segs[0]|;
      }
    }
    Join(" ", segs)
  }

  /** Sum over the entries of |key| + 1 + |value|. */
  function EntriesLength(e: EnvMap): nat
  {
    if e == [] then 0 else |e[0].0| + 1 + |e[0].1| + EntriesLength(e[1..])
  }

  lemma {:induction false} SegmentsLength(e: EnvMap)
    ensures TotalLength(Segments(e)) == EntriesLength(e)
  {
    if e != [] {
      SegmentsLength(e[1..]);
      assert Segments(e)[1..] == Segments(e[1..]);
    }
  }

  /** For n >= 1 entries the rendering is the entries plus n - 1 separating spaces long. */
  lemma EnvStrLength(e: EnvMap)
    requires e != []
    ensures |EnvDictToStr(e)| == EntriesLength(e) + |e| - 1
  {
    JoinLength(" ", Segments(e));
    SegmentsLength(e);
  }

  /** Reads one `key=value` segment back, splitting at the first `=`. */
  function ParseSegment(seg: string): (string, string)
  {
    match FirstIndex(seg, '=')
    case Some(i) => (seg[..i], seg[i + 1..])
    case None => (seg, "")
  }

  /** Reads a rendered environment string back into its entries. */
  function ParseEnvStr(s: string): EnvMap
  {
    if s == "" then [] else
      var segs := Split(s, ' ');
      seq(|segs|, i requires 0 <= i < |segs| => ParseSegment(segs[i]))
  }

  /** Since nothing is quoted or escaped, the rendering reads back exactly when no key holds
      a space or `=` and no value holds a space: the single space is the only separator. */
  lemma EnvStrRoundTrip(e: EnvMap)
    requires forall i :: 0 <= i < |e| ==> ' ' !in e[i].0 && '=' !in e[i].0 && ' ' !in e[i].1
    ensures ParseEnvStr(EnvDictToStr(e)) == e
  {
    if e != [] {
      var segs := Segments(e);
      forall i | 0 <= i < |segs| ensures ' ' !in segs[i] {
        assert segs[i] == e[i].0 + "=" + e[i].1;
      }
      SplitJoin(segs, ' ');
      forall i | 0 <= i < |e| ensures ParseSegment(segs[i]) == e[i] {
        var k := e[i].0;
        assert segs[i] == k + ['='] + e[i].1;
        assert FirstIndex(segs[i], '=') == Some(|k|) by {
          var s := segs[i];
          assert s[..|k|] == k && s[|k|] == '=';
        }
        assert segs[i][..|k|] == k && segs[i][|k| + 1..] == e[i].1;
      }
    }
  }

  /** Without escaping, a value that holds a space and `=` reads as two entries. */
  lemma EnvStrNotEscaped()
    ensures EnvDictToStr([("A", "1 B=2")]) == EnvDictToStr([("A", "1"), ("B", "2")])
  {
  }
}
