/**
 * The analysis records and the browser-persisted history of past analyses
 * (src/app/api/mockApi.ts). The single localStorage key is modelled as one
 * field of a `HistoryStore` object; JSON encoding is abstracted away.
 */
module MockApi {

  /** The value of `comprehensionScore` as it is found in a record: a JavaScript number,
      or (in a record read back from storage) any value whose `typeof` is not "number". */
  datatype Score = Number(value: real) | NonNumber

  /** The result shown to the user. */
  datatype AnalysisResponse = AnalysisResponse(
    recognizedText: string,
    comprehensionScore: Score,
    correctAspects: seq<string>,
    errors: seq<string>,
    recommendations: seq<string>)

  /** One history entry: the response plus the metadata added when it was saved. */
  datatype SavedAnalysis = SavedAnalysis(
    response: AnalysisResponse,
    id: string,
    topic: string,
    date: string,
    audioName: string)

  /** What the storage key holds: nothing (absent or the empty string), text that does not
      parse, or a parsed array of records. */
  datatype StoredValue = Missing | Corrupt | Stored(records: seq<SavedAnalysis>)

  /** The bound on the number of stored records. */
  const MaxRecords: nat := 10

  /** `s.slice(0, end)` */
  function Slice<T>(s: seq<T>, end: nat): (r: seq<T>)
    ensures |r| == if end < |s| then end else |s|
    ensures r <= s
  {
    if end < |s| then s[..end] else s
  }

  /** The list `getAnalysisHistory` yields for a stored value. */
  function History(v: StoredValue): seq<SavedAnalysis>
  {
    match v
    case Stored(records) => records
    case _ => []
  }

  /** The list `saveAnalysis` writes back: `a` in front, then trimmed to the bound. */
  function SaveInto(h: seq<SavedAnalysis>, a: SavedAnalysis): (r: seq<SavedAnalysis>)
    ensures 0 < |r| <= MaxRecords
    ensures r[0] == a
    ensures r[1..] == Slice(h, MaxRecords - 1)
  {
    var unshifted := [a] + h;
    assert unshifted[1..] == h;
    Slice(unshifted, MaxRecords)
  }

  /** The list `deleteAnalysis` writes back: `h.filter(item => item.id !== id)`. */
  function Without(h: seq<SavedAnalysis>, id: string): (r: seq<SavedAnalysis>)
    ensures |r| <= |h|
    ensures forall i :: 0 <= i < |r| ==> r[i].id != id
    ensures forall x :: x in r <==> x in h && x.id != id
  {
    if h == [] then []
    else if h[0].id == id then Without(h[1..], id)
    else [h[0]] + Without(h[1..], id)
  }

  /** Filtering distributes over concatenation; together with the one-element cases of the
      definition this says the filter keeps the surviving records in their original order. */
  lemma {:induction false} WithoutAppend(h1: seq<SavedAnalysis>, h2: seq<SavedAnalysis>, id: string)
    ensures Without(h1 + h2, id) == Without(h1, id) + Without(h2, id)
  {
    if h1 == [] {
      assert h1 + h2 == h2;
    } else {
      assert (h1 + h2)[0] == h1[0];
      assert (h1 + h2)[1..] == h1[1..] + h2;
      WithoutAppend(h1[1..], h2, id);
    }
  }

  /** Deleting an id that no record carries leaves the list exactly as it was. */
  lemma {:induction false} WithoutAbsent(h: seq<SavedAnalysis>, id: string)
    requires forall i :: 0 <= i < |h| ==> h[i].id != id
    ensures Without(h, id) == h
  {
    if h != [] {
      WithoutAbsent(h[1..], id);
    }
  }

  /** Deleting the same id twice is the same as deleting it once. */
  lemma {:induction false} WithoutIdempotent(h: seq<SavedAnalysis>, id: string)
    ensures Without(Without(h, id), id) == Without(h, id)
  {
    WithoutAbsent(Without(h, id), id);
  }

  /** No id-uniqueness check: saving a record whose id the newest record already has keeps both. */
  lemma SaveKeepsDuplicateIds(h: seq<SavedAnalysis>, a: SavedAnalysis)
    requires |h| > 0 && h[0].id == a.id
    ensures |SaveInto(h, a)| >= 2
    ensures SaveInto(h, a)[0] == a && SaveInto(h, a)[1] == h[0]
    ensures SaveInto(h, a)[0].id == SaveInto(h, a)[1].id
  {
    assert SaveInto(h, a)[1..][0] == h[0];
  }

  function Reverse<T>(s: seq<T>): (r: seq<T>)
    ensures |r| == |s|
  {
    if s == [] then [] else Reverse(s[1..]) + [s[0]]
  }

  /** The list left after saving each of `rs`, first to last, starting from list `h`. */
  function SaveAll(h: seq<SavedAnalysis>, rs: seq<SavedAnalysis>): seq<SavedAnalysis>
    decreases |rs|
  {
    if rs == [] then h else SaveAll(SaveInto(h, rs[0]), rs[1..])
  }

  lemma {:induction false} SliceOfSlice(a: seq<SavedAnalysis>, b: seq<SavedAnalysis>)
    ensures Slice(a + Slice(b, MaxRecords), MaxRecords) == Slice(a + b, MaxRecords)
  {
    var l := Slice(a + Slice(b, MaxRecords), MaxRecords);
    var r := Slice(a + b, MaxRecords);
    assert |l| == |r|;
    forall i | 0 <= i < |l| ensures l[i] == r[i] {
      if i < |a| {
        assert l[i] == (a + Slice(b, MaxRecords))[i] == a[i];
      } else {
        assert l[i] == (a + Slice(b, MaxRecords))[i] == Slice(b, MaxRecords)[i - |a|];
      }
    }
  }

  /** Repeated saves, starting from a list within the bound, keep the most recent records,
      newest first, within the bound. */
  lemma {:induction false} SaveAllKeepsNewest(h: seq<SavedAnalysis>, rs: seq<SavedAnalysis>)
    requires |h| <= MaxRecords
    ensures SaveAll(h, rs) == Slice(Reverse(rs) + h, MaxRecords)
    decreases |rs|
  {
    if rs == [] {
      assert Reverse(rs) + h == h;
    } else {
      SaveAllKeepsNewest(SaveInto(h, rs[0]), rs[1..]);
      SliceOfSlice(Reverse(rs[1..]), [rs[0]] + h);
      assert Reverse(rs) + h == Reverse(rs[1..]) + ([rs[0]] + h);
    }
  }

  /** Saving eleven records one after another into an empty store leaves the last ten,
      newest first: the first record is evicted. */
  lemma ElevenSavesKeepLastTen(rs: seq<SavedAnalysis>)
    requires |rs| == 11
    ensures SaveAll([], rs) == Reverse(rs[1..])
    ensures |SaveAll([], rs)| == 10
    ensures forall i :: 0 <= i < 10 ==> SaveAll([], rs)[i] == rs[10 - i]
  {
    SaveAllKeepsNewest([], rs);
    assert rs == [rs[0]] + rs[1..];
    assert Reverse(rs) == Reverse(rs[1..]) + [rs[0]];
    assert Reverse(rs) + [] == Reverse(rs);
    assert Slice(Reverse(rs), MaxRecords) == Reverse(rs[1..]);
    forall i | 0 <= i < 10 ensures Reverse(rs[1..])[i] == rs[10 - i] {
      ReverseAt(rs[1..], i);
    }
  }

  lemma {:induction false} ReverseAt<T>(s: seq<T>, i: nat)
    requires i < |s|
    ensures Reverse(s)[i] == s[|s| - 1 - i]
  {
    if i < |s| - 1 {
      ReverseAt(s[1..], i);
    }
  }

  /** The one localStorage key that holds the history. */
  class HistoryStore {
    var stored: StoredValue

    constructor (initial: StoredValue)
      ensures stored == initial
    {
      stored := initial;
    }

    /** `getAnalysisHistory`: never fails; a missing or unparsable value reads as no history. */
    method GetAnalysisHistory() returns (h: seq<SavedAnalysis>)
      ensures stored.Stored? ==> h == stored.records
      ensures !stored.Stored? ==> h == []
      ensures h == History(stored)
    {
      match stored
      case Stored(records) => h := records;
      case Missing => h := [];
      case Corrupt => h := [];
    }

    /** `saveAnalysis`: read the list, put `a` in front, keep the first ten, write it back. */
    method SaveAnalysis(a: SavedAnalysis)
      modifies this
      ensures stored == Stored(SaveInto(History(old(stored)), a))
      ensures |stored.records| <= MaxRecords
      ensures stored.records[0] == a
      ensures stored.records[1..] == Slice(History(old(stored)), MaxRecords - 1)
    {
      var history := GetAnalysisHistory();
      history := [a] + history;
      var trimmed := Slice(history, MaxRecords);
      stored := Stored(trimmed);
    }

    /** `clearAnalysisHistory`: remove the key; the next read yields no history. */
    method ClearAnalysisHistory()
      modifies this
      ensures stored == Missing
      ensures History(stored) == []
    {
      stored := Missing;
    }

    /** `deleteAnalysis`: write back the list without every record carrying `id`. */
    method DeleteAnalysis(id: string)
      modifies this
      ensures stored == Stored(Without(History(old(stored)), id))
      ensures forall x :: x in stored.records <==> x in History(old(stored)) && x.id != id
      ensures (forall x :: x in History(old(stored)) ==> x.id != id) ==> stored.records == History(old(stored))
    {
      var history := GetAnalysisHistory();
      var filtered := Without(history, id);
      if forall x :: x in history ==> x.id != id {
        WithoutAbsent(history, id);
      }
      stored := Stored(filtered);
    }
  }
}
