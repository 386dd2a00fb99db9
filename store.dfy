/**
 * The document-store collaborator the handlers talk to, reduced to what they use:
 * find with a filter, newest-first order, skip and limit; count; find, update and
 * delete by id; create. Identifiers and timestamps come from one increasing clock,
 * so a record's id is also its creation stamp.
 */
module Store {
  import opened Wrappers
  import opened JsValues
  import opened Schema

  // ---------------------------------------------------------------- filters

  /** ASCII case folding, as a case-insensitive pattern compares letters. */
  function Lower(c: char): char
  {
    if 'A' <= c <= 'Z' then (c as int + 32) as char else c
  }

  function Fold(s: string): (r: string)
    ensures |r| == |s| && forall i :: 0 <= i < |s| ==> r[i] == Lower(s[i])
  {
    if s == [] then [] else [Lower(s[0])] + Fold(s[1..])
  }

  /** Whether `hay` starts with `needle`, ignoring case. */
  predicate StartsWithIgnoreCase(hay: string, needle: string)
  {
    |needle| <= |hay| && Fold(hay[..|needle|]) == Fold(needle)
  }

  /** Whether `needle` occurs somewhere in `hay`, ignoring case: a case-insensitive pattern without metacharacters. */
  predicate ContainsIgnoreCase(hay: string, needle: string)
    decreases |hay|
  {
    StartsWithIgnoreCase(hay, needle) || (hay != [] && ContainsIgnoreCase(hay[1..], needle))
  }

  /** `needle` occurs in `hay` at offset `i`, ignoring case. */
  predicate OccursAt(hay: string, needle: string, i: int)
  {
    0 <= i <= |hay| - |needle| && Fold(hay[i..i + |needle|]) == Fold(needle)
  }

  /** The scan above finds exactly the offsets where the folded needle occurs in the folded text. */
  lemma {:induction false} ContainsIgnoreCaseIff(hay: string, needle: string)
    ensures ContainsIgnoreCase(hay, needle) <==> exists i :: OccursAt(hay, needle, i)
    decreases |hay|
  {
    if StartsWithIgnoreCase(hay, needle) {
      assert hay[0..0 + |needle|] == hay[..|needle|];
      assert OccursAt(hay, needle, 0);
    } else if hay == [] {
    } else {
      ContainsIgnoreCaseIff(hay[1..], needle);
      if exists i :: OccursAt(hay[1..], needle, i) {
        var i :| OccursAt(hay[1..], needle, i);
        assert hay[1..][i..i + |needle|] == hay[i + 1..i + 1 + |needle|];
        assert OccursAt(hay, needle, i + 1);
      }
      if exists i :: OccursAt(hay, needle, i) {
        var i :| OccursAt(hay, needle, i);
        assert i != 0 by { assert hay[0..0 + |needle|] == hay[..|needle|]; }
        assert hay[1..][i - 1..i - 1 + |needle|] == hay[i..i + |needle|];
        assert OccursAt(hay[1..], needle, i - 1);
      }
    }
  }

  /** The lower-case and the capitalised spelling of "electronics" fold to the same text. */
  lemma FoldElectronics()
    ensures Fold("electronics") == Fold("Electronics")
  {
    var lower, pattern := "electronics", "Electronics";
    assert lower[1..] == pattern[1..];
    assert Lower(lower[0]) == Lower(pattern[0]);
    assert forall i | 1 <= i < |lower| :: lower[i] == pattern[i];
  }

  /** A category pattern "Electronics" matches a stored "consumer electronics": a substring match, not equality. */
  lemma CategoryPatternIsSubstring()
    ensures ContainsIgnoreCase("consumer electronics", "Electronics")
  {
    var stored, pattern := "consumer electronics", "Electronics";
    assert stored[9..20] == "electronics";
    FoldElectronics();
    assert OccursAt(stored, pattern, 9);
    ContainsIgnoreCaseIff(stored, pattern);
  }

  /** A category pattern "Electronics" matches a stored "electronics": case is ignored. */
  lemma CategoryPatternIgnoresCase()
    ensures ContainsIgnoreCase("electronics", "Electronics")
  {
    var stored, pattern := "electronics", "Electronics";
    FoldElectronics();
    assert stored[0..|pattern|] == stored;
    assert OccursAt(stored, pattern, 0);
    ContainsIgnoreCaseIff(stored, pattern);
  }

  /** A query filter: each present pattern must occur, ignoring case, in the corresponding field. */
  datatype Filter = Filter(category: Option<string>, name: Option<string>)

  predicate Matches(f: Filter, p: Product)
  {
    && (f.category.Some? ==> ContainsIgnoreCase(p.category, f.category.value))
    && (f.name.Some? ==> ContainsIgnoreCase(p.name, f.name.value))
  }

  // ---------------------------------------------------------------- listings

  /** The matching records with id below `k`, newest (largest id) first. */
  function NewestFirst(docs: map<nat, Record>, f: Filter, k: nat): seq<Record>
  {
    if k == 0 then []
    else if k - 1 in docs && Matches(f, docs[k - 1].product) then [docs[k - 1]] + NewestFirst(docs, f, k - 1)
    else NewestFirst(docs, f, k - 1)
  }

  /** The ids of those records, as a set. */
  function MatchIds(docs: map<nat, Record>, f: Filter, k: nat): set<nat>
  {
    set id | id in docs && id < k && Matches(f, docs[id].product)
  }

  /** Every listed record is stored under its own id, matches, and ids strictly decrease along the listing. */
  lemma {:induction false} NewestFirstSound(docs: map<nat, Record>, f: Filter, k: nat)
    requires forall id | id in docs :: docs[id].id == id
    ensures forall i | 0 <= i < |NewestFirst(docs, f, k)| ::
      var r := NewestFirst(docs, f, k)[i]; r.id in docs && docs[r.id] == r && r.id < k && Matches(f, r.product)
    ensures forall i, j | 0 <= i < j < |NewestFirst(docs, f, k)| ::
      NewestFirst(docs, f, k)[i].id > NewestFirst(docs, f, k)[j].id
  {
    if k > 0 {
      NewestFirstSound(docs, f, k - 1);
    }
  }

  /** Every matching record with id below `k` is listed, and the listing has one entry per matching id. */
  lemma {:induction false} NewestFirstComplete(docs: map<nat, Record>, f: Filter, k: nat)
    requires forall id | id in docs :: docs[id].id == id
    ensures forall id | id in MatchIds(docs, f, k) :: docs[id] in NewestFirst(docs, f, k)
    ensures |NewestFirst(docs, f, k)| == |MatchIds(docs, f, k)|
  {
    if k > 0 {
      NewestFirstComplete(docs, f, k - 1);
      NewestFirstSound(docs, f, k - 1);
      if k - 1 in docs && Matches(f, docs[k - 1].product) {
        assert MatchIds(docs, f, k) == MatchIds(docs, f, k - 1) + {k - 1};
        assert k - 1 !in MatchIds(docs, f, k - 1);
      } else {
        assert MatchIds(docs, f, k) == MatchIds(docs, f, k - 1);
      }
    }
  }

  /** `.skip(skip).limit(limit)` on a listing. */
  function Page<T>(s: seq<T>, skip: nat, limit: nat): (r: seq<T>)
    ensures |r| == if skip >= |s| then 0 else if |s| - skip < limit then |s| - skip else limit
    ensures forall i | 0 <= i < |r| :: r[i] == s[skip + i]
  {
    if skip >= |s| then [] else if |s| - skip < limit then s[skip..] else s[skip..skip + limit]
  }

  /** What the driver raises for a negative skip; MongoDB accepts only skip values of at least 0. */
  const NegativeSkip := "skip value must be non-negative"

  // ---------------------------------------------------------------- the store

  class ProductStore {
    /** The persisted documents by id. */
    var docs: map<nat, Record>
    /** The next stamp: ids and timestamps are drawn from it and it only grows. */
    var clock: nat

    /** Each document sits under its own id, was stamped before `clock`, created no later than updated, and satisfies the schema. */
    ghost predicate Valid()
      reads this
    {
      forall id | id in docs ::
        && docs[id].id == id && docs[id].createdAt == id
        && docs[id].createdAt <= docs[id].updatedAt < clock
        && ValidProduct(docs[id].product)
    }

    constructor ()
      ensures Valid() && docs == map[] && clock == 0
    {
      docs, clock := map[], 0;
    }

    /** All documents matching `f`, newest first: `find(filter).sort({createdAt: -1})`. */
    function Listing(f: Filter): seq<Record>
      reads this
    {
      NewestFirst(docs, f, clock)
    }

    /** `find(filter).skip(skip).limit(limit).sort({createdAt: -1})`. */
    method Find(f: Filter, skip: int, limit: int) returns (r: Result<seq<Record>, string>)
      requires Valid() && limit > 0
      ensures skip < 0 ==> r == Failure(NegativeSkip)
      ensures skip >= 0 ==> r == Success(Page(Listing(f), skip, limit))
    {
      if skip < 0 {
        return Failure(NegativeSkip);
      }
      r := Success(Page(NewestFirst(docs, f, clock), skip, limit));
    }

    /** `countDocuments(filter)`: the number of stored documents that match. */
    method CountDocuments(f: Filter) returns (n: nat)
      requires Valid()
      ensures n == |set id | id in docs && Matches(f, docs[id].product)|
      ensures n == |Listing(f)|
    {
      NewestFirstComplete(docs, f, clock);
      assert MatchIds(docs, f, clock) == set id | id in docs && Matches(f, docs[id].product);
      n := |NewestFirst(docs, f, clock)|;
    }

    /** `findById(id)`. */
    method FindById(id: nat) returns (r: Option<Record>)
      ensures r == if id in docs then Some(docs[id]) else None
    {
      r := if id in docs then Some(docs[id]) else None;
    }

    /** `create(fields)`: a schema-valid body is stored under a fresh id; an invalid one changes nothing. */
    method Create(b: Body) returns (r: Result<Record, seq<FieldError>>)
      requires Valid()
      modifies this
      ensures Valid()
      ensures FromBody(b).Failure? ==> r == Failure(FromBody(b).error) && docs == old(docs) && clock == old(clock)
      ensures FromBody(b).Success? ==>
        && r == Success(Record(old(clock), FromBody(b).value, old(clock), old(clock)))
        && old(clock) !in old(docs)
        && docs == old(docs)[old(clock) := r.value] && clock == old(clock) + 1
    {
      var fields := FromBody(b);
      if fields.Failure? {
        return Failure(fields.error);
      }
      var record := Record(clock, fields.value, clock, clock);
      docs, clock := docs[clock := record], clock + 1;
      r := Success(record);
    }

    /**
     * `findByIdAndUpdate(id, body, {new: true, runValidators: true})`: the update is cast and
     * validated first; then an unknown id yields no record, and a known one is merged and restamped.
     */
    method FindByIdAndUpdate(id: nat, b: Body) returns (r: Result<Option<Record>, seq<FieldError>>)
      requires Valid()
      modifies this
      ensures Valid()
      ensures UpdateFromBody(b).Failure? ==> r == Failure(UpdateFromBody(b).error) && docs == old(docs) && clock == old(clock)
      ensures UpdateFromBody(b).Success? && id !in old(docs) ==> r == Success(None) && docs == old(docs) && clock == old(clock)
      ensures UpdateFromBody(b).Success? && id in old(docs) ==>
        var updated := old(docs)[id].(product := Merge(old(docs)[id].product, UpdateFromBody(b).value), updatedAt := old(clock));
        && r == Success(Some(updated))
        && docs == old(docs)[id := updated] && clock == old(clock) + 1
    {
      var patch := UpdateFromBody(b);
      if patch.Failure? {
        return Failure(patch.error);
      }
      if id !in docs {
        return Success(None);
      }
      var u := UpdateFromBody(b).value;
      var prior := docs[id];
      MergeKeepsValid(prior.product, b);
      var updated := prior.(product := Merge(prior.product, u), updatedAt := clock);
      docs, clock := docs[id := updated], clock + 1;
      r := Success(Some(updated));
    }

    /** `findByIdAndDelete(id)`: removes the document and returns its last state, or nothing for an unknown id. */
    method FindByIdAndDelete(id: nat) returns (r: Option<Record>)
      requires Valid()
      modifies this
      ensures Valid() && clock == old(clock)
      ensures r == if id in old(docs) then Some(old(docs)[id]) else None
      ensures docs == old(docs) - {id}
    {
      r := if id in docs then Some(docs[id]) else None;
      docs := docs - {id};
    }
  }
}
