/** The keyed containers that carry ambient state to the formula visitors:
    DependencyManager, FormulaSemantics and EvaluationManager. Each is a map
    from a closed set of typed keys to values, written one entry at a time by
    `set(key, value)`. */
module ContextManager {
  import opened FormulaBase

  /** The keys the factory writes. */
  datatype Key = FMANAGER | INSTANCE | SCOPE | ASSERTED

  /** A value stored under a key. The asserted format may be null. */
  datatype Value =
    | FormulaManagerValue(formulaManager: FormulaManager)
    | ScopeInstanceValue(scopeInst: ScopeInstance)
    | LegalScopeValue(legalScope: LegalScope)
    | FormatValue(format: Option<Format>)

  /** A key is typed: it admits only values of its own kind. */
  predicate Fits(key: Key, value: Value)
  {
    match key
    case FMANAGER => value.FormulaManagerValue?
    case INSTANCE => value.ScopeInstanceValue?
    case SCOPE => value.LegalScopeValue?
    case ASSERTED => value.FormatValue?
  }

  /** Every stored value has the kind its key calls for. */
  predicate WellTyped(m: map<Key, Value>)
  {
    forall k :: k in m ==> Fits(k, m[k])
  }

  /** One `set(key, value)` call. */
  datatype Update = Update(key: Key, value: Value)

  /** The keys that a sequence of `set` calls writes. */
  function UpdatedKeys(updates: seq<Update>): set<Key>
  {
    set u | u in updates :: u.key
  }

  /** The contents after performing the `set` calls of `updates` in order,
      starting from `m`: every written key is present, and an entry that no
      call writes keeps its old value. */
  function Apply(m: map<Key, Value>, updates: seq<Update>): (r: map<Key, Value>)
    ensures r.Keys == m.Keys + UpdatedKeys(updates)
    ensures forall k :: k in m && k !in UpdatedKeys(updates) ==> r[k] == m[k]
    decreases |updates|
  {
    if updates == [] then m
    else
      assert UpdatedKeys(updates) == {updates[0].key} + UpdatedKeys(updates[1..]) by {
        assert updates == [updates[0]] + updates[1..];
      }
      Apply(m[updates[0].key := updates[0].value], updates[1..])
  }

  /** The last `set` of a key decides its value. */
  lemma {:induction false} ApplyLastWriteWins(m: map<Key, Value>, updates: seq<Update>, i: nat)
    requires i < |updates|
    requires forall j :: i < j < |updates| ==> updates[j].key != updates[i].key
    ensures updates[i].key in Apply(m, updates)
    ensures Apply(m, updates)[updates[i].key] == updates[i].value
    decreases |updates|
  {
    var m' := m[updates[0].key := updates[0].value];
    if i == 0 {
      var k := updates[0].key;
      assert k !in UpdatedKeys(updates[1..]) by {
        forall u | u in updates[1..] ensures u.key != k {
          var j :| 0 <= j < |updates[1..]| && updates[1..][j] == u;
          assert updates[j + 1] == u;
        }
      }
    } else {
      ApplyLastWriteWins(m', updates[1..], i - 1);
    }
  }

  /** The keys written by three `set` calls. */
  lemma UpdatedKeysOfThree(updates: seq<Update>)
    requires |updates| == 3
    ensures UpdatedKeys(updates) == {updates[0].key, updates[1].key, updates[2].key}
  {
  }

  /** Performing two runs of `set` calls one after the other is the same as
      performing their concatenation. */
  lemma {:induction false} ApplyConcat(m: map<Key, Value>, first: seq<Update>, second: seq<Update>)
    ensures Apply(Apply(m, first), second) == Apply(m, first + second)
    decreases |first|
  {
    if first == [] {
      assert first + second == second;
    } else {
      assert (first + second)[1..] == first[1..] + second;
      ApplyConcat(m[first[0].key := first[0].value], first[1..], second);
    }
  }

  /** Writing only values of the right kind keeps a container well typed. */
  lemma {:induction false} ApplyKeepsWellTyped(m: map<Key, Value>, updates: seq<Update>)
    requires WellTyped(m)
    requires forall u :: u in updates ==> Fits(u.key, u.value)
    ensures WellTyped(Apply(m, updates))
    decreases |updates|
  {
    if updates != [] {
      var m' := m[updates[0].key := updates[0].value];
      assert WellTyped(m');
      forall u | u in updates[1..] ensures Fits(u.key, u.value) {
        assert u in updates;
      }
      ApplyKeepsWellTyped(m', updates[1..]);
    }
  }

  /** Which of the three visitors a container serves. */
  datatype Flavor = Dependency | Semantics | Evaluation

  /** The keys each flavor needs: the formula manager always, the scope
      instance for dependency capture and evaluation, the legal scope for
      semantics, and the asserted format slot (which may hold null). */
  predicate Populated(flavor: Flavor, m: map<Key, Value>)
  {
    && FMANAGER in m
    && ASSERTED in m
    && (if flavor == Semantics then SCOPE in m && INSTANCE !in m
        else INSTANCE in m && SCOPE !in m)
  }

  /** A DependencyManager, FormulaSemantics or EvaluationManager object. */
  class Manager {
    const flavor: Flavor
    var entries: map<Key, Value>

    ghost predicate Valid()
      reads this
    {
      WellTyped(entries)
    }

    /** A new, empty container. */
    constructor (flavor: Flavor)
      ensures Valid()
      ensures this.flavor == flavor
      ensures entries == map[]
    {
      this.flavor := flavor;
      entries := map[];
    }

    /** Stores `value` under `key`, replacing whatever was there. */
    method Set(key: Key, value: Value)
      requires Valid()
      requires Fits(key, value)
      modifies this
      ensures Valid()
      ensures entries == Apply(old(entries), [Update(key, value)])
    {
      entries := entries[key := value];
      assert entries == Apply(old(entries), [Update(key, value)]) by {
        assert [Update(key, value)][1..] == [];
      }
    }
  }
}
