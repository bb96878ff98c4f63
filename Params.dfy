/** Run configurations and the layered merge of a run-set's common profile
    with one run's own parameters (run_all.py, `scalar_params`, `list_params`,
    `check_params`, `merge_params`). */
module Params {
  import opened Text

  /** A run configuration: parameter name to value. Every value in the
      run-set catalogs is a string. */
  type Config = map<string, string>

  /** How a key merges: replaced, appended with a separator, or unknown. */
  datatype ParamKind = Scalar | List(sep: string) | Unknown

  /** `scalar_params`. */
  const ScalarParams: set<string> :=
    {"name", "arch", "chip", "board", "cc", "ld", "cpu_mhz", "warmup_heat", "nostartfiles", "nostdlib"}

  /** `list_params`: each list parameter with its separator. */
  const ListSeparators: map<string, string> :=
    map["cflags" := " ", "ldflags" := " ", "user_libs" := ",", "path" := ":", "env" := ":"]

  /** The classification `merge_params` applies: the list table is consulted first. */
  function Kind(key: string): ParamKind {
    if key in ListSeparators then List(ListSeparators[key])
    else if key in ScalarParams then Scalar
    else Unknown
  }

  predicate Known(key: string) {
    !Kind(key).Unknown?
  }

  /** The keys `check_params` and `merge_params` warn about. */
  function UnknownKeys(params: Config): set<string> {
    set k | k in params && !Known(k)
  }

  /** The keys of `add` that a merge writes. */
  function KnownKeys(add: Config): set<string> {
    set k | k in add && Known(k)
  }

  /** The merged value of one key that the merge writes or keeps. */
  function MergedValue(orig: Config, add: Config, k: string): string
    requires k in orig || k in KnownKeys(add)
  {
    if k in add && Known(k) then
      if Kind(k).List? && k in orig then orig[k] + Kind(k).sep + add[k] else add[k]
    else orig[k]
  }

  /** The result of `merge_params(orig, add)`, key by key. */
  function Merged(orig: Config, add: Config): (r: Config)
    ensures r.Keys == orig.Keys + KnownKeys(add)
    ensures forall k :: k in add && Kind(k).List? && k in orig ==> r[k] == orig[k] + Kind(k).sep + add[k]
    ensures forall k :: k in add && Kind(k).List? && k !in orig ==> r[k] == add[k]
    ensures forall k :: k in add && Kind(k).Scalar? ==> r[k] == add[k]
    ensures forall k :: k in orig && (k !in add || !Known(k)) ==> r[k] == orig[k]
  {
    map k | k in orig.Keys + KnownKeys(add) :: MergedValue(orig, add, k)
  }

  /** `check_params`: visits every key of `params` and warns about each
      unknown one; the result is the set of keys warned about. */
  method CheckParams(params: Config) returns (warned: set<string>)
    ensures warned == UnknownKeys(params)
  {
    warned := {};
    var todo := params.Keys;
    while todo != {}
      invariant todo <= params.Keys
      invariant warned == UnknownKeys(params) - todo
      decreases todo
    {
      var key :| key in todo;
      if !Known(key) {
        warned := warned + {key};
      }
      todo := todo - {key};
    }
  }

  /** `merge_params`: copies `orig`, then folds every key of `add` into the
      copy; `warned` holds the unknown keys it warned about and skipped. */
  method MergeParams(orig: Config, add: Config) returns (dest: Config, warned: set<string>)
    ensures dest == Merged(orig, add)
    ensures warned == UnknownKeys(add)
  {
    dest := orig;
    warned := {};
    var todo := add.Keys;
    while todo != {}
      invariant todo <= add.Keys
      invariant dest == Merged(orig, add - todo)
      invariant warned == UnknownKeys(add) - todo
      decreases todo
    {
      var key :| key in todo;
      ghost var before := add - todo;
      ghost var after := add - (todo - {key});
      assert after.Keys == before.Keys + {key};
      assert after == before[key := add[key]];
      assert key !in KnownKeys(before);
      assert key in dest <==> key in orig;
      assert key in dest ==> dest[key] == orig[key];
      assert UnknownKeys(add) - (todo - {key}) == (UnknownKeys(add) - todo) + (if Known(key) then {} else {key});
      MergeStep(orig, before, after, key);
      match Kind(key) {
        case List(sep) =>
          if key in dest {
            dest := dest[key := dest[key] + sep + add[key]];
          } else {
            dest := dest[key := add[key]];
          }
        case Scalar =>
          dest := dest[key := add[key]];
        case Unknown =>
          warned := warned + {key};
      }
      todo := todo - {key};
    }
    assert add - {} == add;
  }

  /** Folding one more key of `add` into a partial merge. */
  lemma MergeStep(orig: Config, before: Config, after: Config, key: string)
    requires key !in before && key in after
    requires after == before[key := after[key]]
    ensures Merged(orig, after) ==
      if !Known(key) then Merged(orig, before)
      else if Kind(key).List? && key in orig then Merged(orig, before)[key := orig[key] + Kind(key).sep + after[key]]
      else Merged(orig, before)[key := after[key]]
  {
    var merged := Merged(orig, after);
    var partial := Merged(orig, before);
    MergedKeysStep(orig, before, after, key);
    forall k | k in merged && k != key
      ensures k in partial && merged[k] == partial[k]
    {
      OtherKeyUnchanged(orig, before, after, key, k);
    }
    if !Known(key) {
      SameMap(merged, partial);
    } else {
      var v := if Kind(key).List? && key in orig then orig[key] + Kind(key).sep + after[key] else after[key];
      assert key in merged && merged[key] == v;
      SameMap(merged, partial[key := v]);
    }
  }

  /** Maps with the same keys and the same value at each key are equal. */
  lemma SameMap(m1: Config, m2: Config)
    requires m1.Keys == m2.Keys
    requires forall k :: k in m1 ==> m1[k] == m2[k]
    ensures m1 == m2
  {
  }

  /** One more key of `add` adds itself to the merged keys when it is known. */
  lemma MergedKeysStep(orig: Config, before: Config, after: Config, key: string)
    requires key !in before && key in after && after == before[key := after[key]]
    ensures Merged(orig, after).Keys == Merged(orig, before).Keys + (if Known(key) then {key} else {})
  {
    KnownKeysStep(before, after, key);
  }

  /** One more key of `add` adds itself to the written keys when it is known. */
  lemma KnownKeysStep(before: Config, after: Config, key: string)
    requires key !in before && key in after && after == before[key := after[key]]
    ensures KnownKeys(after) == KnownKeys(before) + (if Known(key) then {key} else {})
  {
  }

  /** A key other than the one folded in keeps its merged value. */
  lemma OtherKeyUnchanged(orig: Config, before: Config, after: Config, key: string, k: string)
    requires key !in before && key in after && after == before[key := after[key]]
    requires k != key && (k in orig || k in KnownKeys(before))
    ensures k in Merged(orig, after) && k in Merged(orig, before)
    ensures Merged(orig, after)[k] == Merged(orig, before)[k]
  {
    assert k in after <==> k in before;
    assert MergedValue(orig, after, k) == MergedValue(orig, before, k);
  }

  /** Merging an empty override gives back the common profile. */
  lemma MergeNothing(orig: Config)
    ensures Merged(orig, map[]) == orig
  {
    assert KnownKeys(map[]) == {};
  }

  /** Keys unknown to the tables never change the profile: an override made
      only of them merges to the profile itself. */
  lemma MergeUnknownOnly(orig: Config, add: Config)
    requires forall k :: k in add ==> !Known(k)
    ensures Merged(orig, add) == orig
  {
    assert KnownKeys(add) == {};
  }

  /** For the space-separated list keys (`cflags`, `ldflags`) the merged value
      splits into the profile's flags followed by the run's flags. */
  lemma MergedFlagsTokens(orig: Config, add: Config, k: string)
    requires k in orig && k in add && Kind(k) == List(" ")
    ensures Split(Merged(orig, add)[k]) == Split(orig[k]) + Split(add[k])
  {
    SplitAroundSpace(orig[k], ' ', add[k]);
    assert orig[k] + " " + add[k] == orig[k] + [' '] + add[k];
  }
}
