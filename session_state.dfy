/** The page's session-state store: one string-keyed dictionary that outlives
    each rerun of the page and holds the company name and, per dimension, a
    score ("score_<id>") and a note ("note_<id>").

    The specification functions take the dimension table as a parameter
    `dims`; the page always passes DIMENSIONS. */
module SessionState {
  import opened Dimensions
  import opened Averaging

  /** A value held in the store: text (the name, the notes) or an integer
      (a slider score). */
  datatype Value = Text(s: string) | Int(n: int)

  const CompanyKey: string := "company_name"

  function ScoreKey(id: string): string { "score_" + id }

  function NoteKey(id: string): string { "note_" + id }

  predicate IsScoreKey(key: string)
  {
    |key| >= 6 && key[..6] == "score_"
  }

  /** The value a key gets at start-up and on reset: 50 for a score, the
      empty string for the company name and for a note. */
  function DefaultValue(key: string): Value
  {
    if IsScoreKey(key) then Int(50) else Text("")
  }

  /** Score keys, note keys and the company key never collide, and each gets
      the default of its kind. */
  lemma KeyKinds(id: string)
    ensures IsScoreKey(ScoreKey(id)) && !IsScoreKey(NoteKey(id)) && !IsScoreKey(CompanyKey)
    ensures ScoreKey(id) != CompanyKey && NoteKey(id) != CompanyKey
    ensures DefaultValue(ScoreKey(id)) == Int(50)
    ensures DefaultValue(NoteKey(id)) == Text("") && DefaultValue(CompanyKey) == Text("")
  {
    assert ScoreKey(id)[..6] == "score_";
    assert NoteKey(id)[0] == 'n';
    assert CompanyKey[0] == 'c';
  }

  /** "score_" + id determines id, and likewise for notes. */
  lemma KeysInjective(a: string, b: string)
    ensures ScoreKey(a) == ScoreKey(b) ==> a == b
    ensures NoteKey(a) == NoteKey(b) ==> a == b
    ensures ScoreKey(a) != NoteKey(b)
  {
    assert ScoreKey(a)[6..] == a && ScoreKey(b)[6..] == b;
    assert NoteKey(a)[5..] == a && NoteKey(b)[5..] == b;
    assert ScoreKey(a)[0] != NoteKey(b)[0];
  }

  /** The company key and the keys of the first n dimensions, in the order
      the page visits them. */
  function KeysUpTo(dims: seq<Dimension>, n: nat): set<string>
    requires n <= |dims|
  {
    if n == 0 then {CompanyKey}
    else KeysUpTo(dims, n - 1) + {ScoreKey(dims[n - 1].id), NoteKey(dims[n - 1].id)}
  }

  /** Every key the page initialises and resets. */
  function ManagedKeys(dims: seq<Dimension>): set<string>
  {
    KeysUpTo(dims, |dims|)
  }

  lemma {:induction false} KeysUpToMembers(dims: seq<Dimension>, n: nat, key: string)
    requires n <= |dims|
    ensures key in KeysUpTo(dims, n) <==>
      key == CompanyKey ||
      exists i :: 0 <= i < n && (key == ScoreKey(dims[i].id) || key == NoteKey(dims[i].id))
  {
    if n > 0 {
      KeysUpToMembers(dims, n - 1, key);
    }
  }

  /** The managed keys are exactly "company_name" and the score and note key
      of each dimension. */
  lemma ManagedKeysAre(dims: seq<Dimension>, key: string)
    ensures key in ManagedKeys(dims) <==>
      key == CompanyKey ||
      exists i :: 0 <= i < |dims| && (key == ScoreKey(dims[i].id) || key == NoteKey(dims[i].id))
  {
    KeysUpToMembers(dims, |dims|, key);
  }

  lemma {:induction false} KeysUpToCount(dims: seq<Dimension>, n: nat)
    requires n <= |dims| && DistinctIds(dims)
    ensures |KeysUpTo(dims, n)| == 1 + 2 * n
  {
    if n > 0 {
      KeysUpToCount(dims, n - 1);
      var id := dims[n - 1].id;
      KeyKinds(id);
      KeysInjective(id, id);
      forall i | 0 <= i < n - 1
        ensures ScoreKey(id) != ScoreKey(dims[i].id) && ScoreKey(id) != NoteKey(dims[i].id)
        ensures NoteKey(id) != ScoreKey(dims[i].id) && NoteKey(id) != NoteKey(dims[i].id)
      {
        KeysInjective(id, dims[i].id);
        KeysInjective(dims[i].id, id);
      }
      KeysUpToMembers(dims, n - 1, ScoreKey(id));
      KeysUpToMembers(dims, n - 1, NoteKey(id));
    }
  }

  /** With distinct ids the store manages 1 + 2 * |dims| distinct keys:
      thirteen for the page's six dimensions. */
  lemma ManagedKeyCount()
    ensures |ManagedKeys(DIMENSIONS)| == 13
  {
    DimensionIdsDistinct();
    assert |DIMENSIONS| == 6;
    KeysUpToCount(DIMENSIONS, |DIMENSIONS|);
  }

  lemma ManagedKeysOf(dims: seq<Dimension>, i: int)
    requires 0 <= i < |dims|
    ensures CompanyKey in ManagedKeys(dims)
    ensures ScoreKey(dims[i].id) in ManagedKeys(dims) && NoteKey(dims[i].id) in ManagedKeys(dims)
    ensures IsScoreKey(ScoreKey(dims[i].id)) && !IsScoreKey(NoteKey(dims[i].id))
    ensures !IsScoreKey(CompanyKey)
  {
    ManagedKeysAre(dims, CompanyKey);
    ManagedKeysAre(dims, ScoreKey(dims[i].id));
    ManagedKeysAre(dims, NoteKey(dims[i].id));
    KeyKinds(dims[i].id);
  }

  /** The defaults of a set of keys. */
  function DefaultsOver(keys: set<string>): map<string, Value>
  {
    map k | k in keys :: DefaultValue(k)
  }

  function Defaults(dims: seq<Dimension>): map<string, Value>
  {
    DefaultsOver(ManagedKeys(dims))
  }

  /** Every managed key already in the store holds a value of its kind. */
  predicate WellTyped(dims: seq<Dimension>, m: map<string, Value>)
  {
    forall k :: k in ManagedKeys(dims) && k in m ==> (m[k].Int? <==> IsScoreKey(k))
  }

  /** Every managed key is present and holds a value of its kind. */
  predicate Complete(dims: seq<Dimension>, m: map<string, Value>)
  {
    ManagedKeys(dims) <= m.Keys && WellTyped(dims, m)
  }

  /** The store after start-up initialisation: each managed key that is
      missing gets its default, and nothing already there is overwritten. */
  function Initialized(dims: seq<Dimension>, m: map<string, Value>): (r: map<string, Value>)
    ensures r.Keys == m.Keys + ManagedKeys(dims)
    ensures forall k :: k in m ==> r[k] == m[k]
    ensures forall k :: k in ManagedKeys(dims) && k !in m ==> r[k] == DefaultValue(k)
    ensures WellTyped(dims, m) ==> Complete(dims, r)
  {
    Defaults(dims) + m
  }

  /** The store after a reset: every managed key holds its default, and every
      other key keeps its value. */
  function ResetEntries(dims: seq<Dimension>, m: map<string, Value>): (r: map<string, Value>)
    ensures r.Keys == m.Keys + ManagedKeys(dims)
    ensures forall k :: k in ManagedKeys(dims) ==> r[k] == DefaultValue(k)
    ensures forall k :: k in m && k !in ManagedKeys(dims) ==> r[k] == m[k]
    ensures Complete(dims, r)
  {
    m + Defaults(dims)
  }

  /** Initialising twice is initialising once. */
  lemma InitializedIdempotent(dims: seq<Dimension>, m: map<string, Value>)
    ensures Initialized(dims, Initialized(dims, m)) == Initialized(dims, m)
  {
  }

  /** Resetting twice is resetting once, and the start-up initialisation
      finds nothing to do after a reset. */
  lemma ResetIdempotent(dims: seq<Dimension>, m: map<string, Value>)
    ensures ResetEntries(dims, ResetEntries(dims, m)) == ResetEntries(dims, m)
    ensures Initialized(dims, ResetEntries(dims, m)) == ResetEntries(dims, m)
  {
  }

  /** The score held for dimension i of a complete store. */
  function ScoreAt(dims: seq<Dimension>, m: map<string, Value>, i: int): int
    requires Complete(dims, m) && 0 <= i < |dims|
  {
    ManagedKeysOf(dims, i);
    m[ScoreKey(dims[i].id)].n
  }

  /** The note held for dimension i of a complete store. */
  function NoteAt(dims: seq<Dimension>, m: map<string, Value>, i: int): string
    requires Complete(dims, m) && 0 <= i < |dims|
  {
    ManagedKeysOf(dims, i);
    m[NoteKey(dims[i].id)].s
  }

  lemma {:induction false} CompanyKeyManaged(dims: seq<Dimension>, n: nat)
    requires n <= |dims|
    ensures CompanyKey in KeysUpTo(dims, n) && !IsScoreKey(CompanyKey)
  {
    KeyKinds("");
    if n > 0 {
      CompanyKeyManaged(dims, n - 1);
    }
  }

  /** The company name held in a complete store. */
  function CompanyName(dims: seq<Dimension>, m: map<string, Value>): string
    requires Complete(dims, m)
  {
    CompanyKeyManaged(dims, |dims|);
    m[CompanyKey].s
  }

  /** The scores in table order. */
  function Scores(dims: seq<Dimension>, m: map<string, Value>): (s: seq<int>)
    requires Complete(dims, m)
    ensures |s| == |dims|
    ensures forall i :: 0 <= i < |dims| ==> s[i] == ScoreAt(dims, m, i)
  {
    seq(|dims|, i requires 0 <= i < |dims| => ScoreAt(dims, m, i))
  }

  /** The sum of the scores, as the page totals them. */
  function TotalScore(dims: seq<Dimension>, m: map<string, Value>): int
    requires Complete(dims, m)
  {
    Sum(Scores(dims, m))
  }

  /** After a reset the name and every note are empty, every score is 50,
      and so, with six dimensions, the overall score is 50, whatever the
      store held before. */
  lemma ResetValues(dims: seq<Dimension>, m: map<string, Value>)
    requires |dims| == 6
    ensures var r := ResetEntries(dims, m);
      && CompanyName(dims, r) == ""
      && (forall i :: 0 <= i < |dims| ==> ScoreAt(dims, r, i) == 50 && NoteAt(dims, r, i) == "")
      && AverageScore(TotalScore(dims, r)) == 50
  {
    var r := ResetEntries(dims, m);
    CompanyKeyManaged(dims, |dims|);
    forall i | 0 <= i < |dims|
      ensures ScoreAt(dims, r, i) == 50 && NoteAt(dims, r, i) == ""
    {
      ManagedKeysOf(dims, i);
      KeyKinds(dims[i].id);
    }
    AverageOfEqualScores(Scores(dims, r), 50);
  }

  /** Writing a default only where a key is missing. */
  function PutIfMissing(m: map<string, Value>, k: string): map<string, Value>
  {
    if k in m then m else m[k := DefaultValue(k)]
  }

  /** One step of the initialisation loop: putting the defaults of two more
      keys under the existing entries. */
  lemma InitStep(keys: set<string>, a: string, b: string, m: map<string, Value>)
    ensures PutIfMissing(PutIfMissing(DefaultsOver(keys) + m, a), b) == DefaultsOver(keys + {a, b}) + m
  {
  }

  /** One step of the reset loop: writing the defaults of two more keys over
      the existing entries. */
  lemma ResetStep(keys: set<string>, a: string, b: string, m: map<string, Value>)
    ensures (m + DefaultsOver(keys))[a := DefaultValue(a)][b := DefaultValue(b)] == m + DefaultsOver(keys + {a, b})
  {
  }

  /** The store as the page keeps it across reruns. */
  class SessionStore {
    var entries: map<string, Value>

    constructor (initial: map<string, Value>)
      ensures entries == initial
    {
      entries := initial;
    }

    /** Start-up initialisation over the dimension table `dims` (the page
        passes DIMENSIONS): give each missing managed key its default. */
    method InitDefaults(dims: seq<Dimension>)
      modifies this
      ensures entries == Initialized(dims, old(entries))
    {
      KeyKinds("");
      assert DefaultsOver(KeysUpTo(dims, 0)) + old(entries) == PutIfMissing(old(entries), CompanyKey);
      if CompanyKey !in entries {
        entries := entries[CompanyKey := Text("")];
      }
      for i := 0 to |dims|
        invariant entries == DefaultsOver(KeysUpTo(dims, i)) + old(entries)
      {
        var scoreKey := ScoreKey(dims[i].id);
        var noteKey := NoteKey(dims[i].id);
        KeyKinds(dims[i].id);
        InitStep(KeysUpTo(dims, i), scoreKey, noteKey, old(entries));
        if scoreKey !in entries {
          entries := entries[scoreKey := Int(50)];
        }
        if noteKey !in entries {
          entries := entries[noteKey := Text("")];
        }
      }
    }

    /** Reset over the dimension table `dims` (the page passes DIMENSIONS):
        overwrite every managed key with its default. */
    method Reset(dims: seq<Dimension>)
      modifies this
      ensures entries == ResetEntries(dims, old(entries))
    {
      KeyKinds("");
      assert old(entries) + DefaultsOver(KeysUpTo(dims, 0)) == old(entries)[CompanyKey := Text("")];
      entries := entries[CompanyKey := Text("")];
      for i := 0 to |dims|
        invariant entries == old(entries) + DefaultsOver(KeysUpTo(dims, i))
      {
        var scoreKey := ScoreKey(dims[i].id);
        var noteKey := NoteKey(dims[i].id);
        KeyKinds(dims[i].id);
        ResetStep(KeysUpTo(dims, i), scoreKey, noteKey, old(entries));
        entries := entries[scoreKey := Int(50)];
        entries := entries[noteKey := Text("")];
      }
    }
  }
}
