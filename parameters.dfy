/**
 * The value-level rules of signals/functions/function.py: which keyword
 * arguments `check_numeric` reports, what `set_parameter` assigns when every
 * keyword is numeric, and the attribute dictionary the base `construct_function`
 * builds from the keywords.
 */
module Parameters {

  import opened Values

  /** The keys whose values are not of type int or float, in dict order. */
  function NonNumericKeys(kw: seq<(string, Value)>): seq<string> {
    if kw == [] then []
    else (if IsNumeric(kw[0].1) then [] else [kw[0].0]) + NonNumericKeys(kw[1..])
  }

  /** Scanning a dict in two parts reports the first part's keys, then the second's. */
  lemma {:induction false} NonNumericKeysAppend(a: seq<(string, Value)>, b: seq<(string, Value)>)
    ensures NonNumericKeys(a + b) == NonNumericKeys(a) + NonNumericKeys(b)
  {
    if a != [] {
      assert (a + b)[1..] == a[1..] + b;
      NonNumericKeysAppend(a[1..], b);
    } else {
      assert a + b == b;
    }
  }

  /** A key is reported exactly when some entry with that key holds a non-number. */
  lemma {:induction false} NonNumericKeysExact(kw: seq<(string, Value)>, key: string)
    ensures key in NonNumericKeys(kw) <==> exists i :: 0 <= i < |kw| && kw[i].0 == key && !IsNumeric(kw[i].1)
  {
    if kw != [] {
      NonNumericKeysExact(kw[1..], key);
      if key in NonNumericKeys(kw[1..]) {
        var i :| 0 <= i < |kw[1..]| && kw[1..][i].0 == key && !IsNumeric(kw[1..][i].1);
        assert kw[i + 1] == kw[1..][i];
      }
      if exists i :: 0 <= i < |kw| && kw[i].0 == key && !IsNumeric(kw[i].1) {
        var i :| 0 <= i < |kw| && kw[i].0 == key && !IsNumeric(kw[i].1);
        if i > 0 {
          assert kw[1..][i - 1] == kw[i];
        }
      }
    }
  }

  /** Nothing is reported exactly when every value is a number. */
  lemma {:induction false} NonNumericKeysEmpty(kw: seq<(string, Value)>)
    ensures NonNumericKeys(kw) == [] <==> AllNumeric(kw)
  {
    if kw != [] {
      NonNumericKeysEmpty(kw[1..]);
      assert forall i :: 1 <= i < |kw| ==> kw[i] == kw[1..][i - 1];
    }
  }

  /** The value `set_parameter` stores: the keyword's value, or the default when it is absent. */
  function Param(kw: seq<(string, Value)>, key: string, default: Number): (n: Number)
    requires AllNumeric(kw)
    ensures (forall i :: 0 <= i < |kw| ==> kw[i].0 != key) ==> n == default
    ensures DistinctKeys(kw) ==> forall i :: 0 <= i < |kw| && kw[i].0 == key ==> n == kw[i].1
  {
    match Lookup(kw, key)
    case None => default
    case Some(v) => v
  }

  /** An instance's attribute dictionary together with the warnings emitted so far. */
  datatype Built = Built(attrs: map<string, Number>, warnings: seq<Warning>)

  /**
   * `set_parameter(kwargs, attr, key, default)` on an all-numeric dict: stores the
   * value under attr, warning when the key is absent and the default is used.
   */
  function SetParam(b: Built, kw: seq<(string, Value)>, attr: string, key: string, default: Number): Built
    requires AllNumeric(kw)
  {
    Built(b.attrs[attr := Param(kw, key, default)], b.warnings + Defaulted(kw, key, default))
  }

  /** The warning `set_parameter` emits: one when the keyword is absent and the default is used, none otherwise. */
  function Defaulted(kw: seq<(string, Value)>, key: string, default: Number): seq<Warning> {
    if Lookup(kw, key).None? then [DefaultUsed(key, default)] else []
  }

  lemma InDefaulted(kw: seq<(string, Value)>, key: string, default: Number, w: Warning)
    ensures w in Defaulted(kw, key, default) <==> w == DefaultUsed(key, default) && Lookup(kw, key).None?
  {
  }

  /** The attributes the base `construct_function` assigns: every keyword under its own name. */
  function AsMap(kw: seq<(string, Value)>): map<string, Number>
    requires AllNumeric(kw)
  {
    if kw == [] then map[]
    else AsMap(kw[..|kw| - 1])[kw[|kw| - 1].0 := kw[|kw| - 1].1]
  }

  /**
   * Every keyword becomes an attribute of the same name and value, and nothing
   * else does.
   */
  lemma {:induction false} AsMapIsDict(kw: seq<(string, Value)>, key: string)
    requires AllNumeric(kw) && DistinctKeys(kw)
    ensures key in AsMap(kw) <==> Lookup(kw, key).Some?
    ensures key in AsMap(kw) ==> AsMap(kw)[key] == Lookup(kw, key).value
  {
    if kw != [] {
      var init, last := kw[..|kw| - 1], kw[|kw| - 1];
      assert forall i :: 0 <= i < |init| ==> init[i] == kw[i];
      AsMapIsDict(init, key);
      if key != last.0 {
        assert Lookup(kw, key) == Lookup(init, key) by {
          LookupInit(kw, key);
        }
      } else {
        LookupLast(kw);
      }
    }
  }

  /** Looking up a key other than the last one's ignores the last pair. */
  lemma {:induction false} LookupInit(kw: seq<(string, Value)>, key: string)
    requires kw != [] && kw[|kw| - 1].0 != key
    ensures Lookup(kw, key) == Lookup(kw[..|kw| - 1], key)
  {
    if |kw| > 1 && kw[0].0 != key {
      assert kw[1..][..|kw[1..]| - 1] == kw[..|kw| - 1][1..];
      LookupInit(kw[1..], key);
    }
  }

  /** With distinct keys, the last pair is what its key looks up. */
  lemma {:induction false} LookupLast(kw: seq<(string, Value)>)
    requires kw != [] && DistinctKeys(kw)
    ensures Lookup(kw, kw[|kw| - 1].0) == Some(kw[|kw| - 1].1)
  {
    if |kw| > 1 {
      assert DistinctKeys(kw[1..]) by {
        assert forall i :: 0 <= i < |kw[1..]| ==> kw[1..][i] == kw[i + 1];
      }
      assert kw[0].0 != kw[|kw| - 1].0;
      LookupLast(kw[1..]);
    }
  }

  /** With distinct keys, every pair is what its key looks up. */
  lemma {:induction false} LookupIndex(kw: seq<(string, Value)>, i: nat)
    requires DistinctKeys(kw) && i < |kw|
    ensures Lookup(kw, kw[i].0) == Some(kw[i].1)
  {
    if i > 0 {
      assert kw[0].0 != kw[i].0;
      assert DistinctKeys(kw[1..]) by {
        assert forall j :: 0 <= j < |kw[1..]| ==> kw[1..][j] == kw[j + 1];
      }
      LookupIndex(kw[1..], i - 1);
    }
  }

  /** Extending the keywords by one pair assigns that pair last. */
  lemma AsMapStep(kw: seq<(string, Value)>, i: nat)
    requires AllNumeric(kw) && i < |kw|
    ensures AsMap(kw[..i + 1]) == AsMap(kw[..i])[kw[i].0 := kw[i].1]
  {
    assert kw[..i + 1][..i] == kw[..i];
  }

  /** Assigning after a merge is assigning in the map merged last. */
  lemma MergeUpdate(a: map<string, Number>, m: map<string, Number>, key: string, v: Number)
    ensures (a + m)[key := v] == a + m[key := v]
  {
  }
}
