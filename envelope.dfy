/**
  The reply envelope `{"Response": [...], "Pagination": {...} | null}` and its two
  decoding strategies: the flattened one, which merges the first entry of every
  object in the array into one map, and the normal one, which decodes the array
  element by element.
*/
module Envelope {
  import opened Wrappers
  import opened JsonValues

  /** The cursors of a list page; each is a path on the API host. */
  datatype Pagination = Pagination(futureUrl: Option<string>, newerUrl: Option<string>, olderUrl: Option<string>)

  /** The envelope as parsed, before its payload is typed. */
  datatype RawResponse = RawResponse(response: seq<Json>, pagination: Option<Pagination>)

  /** A typed payload together with the envelope's cursors. */
  datatype Response<T> = Response(response: T, pagination: Option<Pagination>)

  // ---------------------------------------------------------------------------
  // The envelope itself
  // ---------------------------------------------------------------------------

  function DecodePagination(j: Json): Result<Pagination>
  {
    match j
    case Obj(fields) =>
      var future :- OptionalStringField(fields, "future_url");
      var newer :- OptionalStringField(fields, "newer_url");
      var older :- OptionalStringField(fields, "older_url");
      Ok(Pagination(future, newer, older))
    case _ => Err(DecodeError("Pagination"))
  }

  /** `Option<Pagination>`: an absent field and `null` both mean no cursors. */
  function DecodeOptionalPagination(fields: seq<(string, Json)>): Result<Option<Pagination>>
  {
    match Get(fields, "Pagination")
    case None => Ok(None)
    case Some(Null) => Ok(None)
    case Some(v) =>
      var p :- DecodePagination(v);
      Ok(Some(p))
  }

  function DecodeRawResponse(j: Json): Result<RawResponse>
  {
    match j
    case Obj(fields) =>
      var response :- Field(fields, "Response");
      if !response.Arr? then Err(DecodeError("Response"))
      else
        var pagination :- DecodeOptionalPagination(fields);
        Ok(RawResponse(response.items, pagination))
    case _ => Err(DecodeError("RawResponse"))
  }

  /** The reply body as the envelope; `None` stands for a body that is not JSON text. */
  function ParseRawResponse(body: Option<Json>): Result<RawResponse>
  {
    match body
    case None => Err(InvalidJson)
    case Some(j) => DecodeRawResponse(j)
  }

  function EncodePagination(p: Pagination): Json
  {
    Obj([("future_url", OptionalString(p.futureUrl)),
         ("newer_url", OptionalString(p.newerUrl)),
         ("older_url", OptionalString(p.olderUrl))])
  }

  /** The wire form of an envelope, with absent cursors written as `null`. */
  function EncodeRawResponse(raw: RawResponse): Json
  {
    Obj([("Response", Arr(raw.response)),
         ("Pagination", match raw.pagination case None => Null case Some(p) => EncodePagination(p))])
  }

  lemma PaginationRoundTrip(p: Pagination)
    ensures DecodePagination(EncodePagination(p)) == Ok(p)
  {
    var fields := EncodePagination(p).fields;
    GetAt(fields, 0, "future_url");
    GetAt(fields, 1, "newer_url");
    GetAt(fields, 2, "older_url");
  }

  /** The envelope survives being written and read back, cursors included. */
  lemma RawResponseRoundTrip(raw: RawResponse)
    ensures DecodeRawResponse(EncodeRawResponse(raw)) == Ok(raw)
  {
    var fields := EncodeRawResponse(raw).fields;
    GetAt(fields, 0, "Response");
    GetAt(fields, 1, "Pagination");
    if raw.pagination.Some? {
      PaginationRoundTrip(raw.pagination.value);
    }
  }

  // ---------------------------------------------------------------------------
  // Flattened decoding: merge the first entry of every object element
  // ---------------------------------------------------------------------------

  /** An object element that contributes its first entry to the merged map. */
  predicate IsEntry(e: Json)
  {
    e.Obj? && |e.fields| > 0
  }

  function FirstKey(e: Json): string
    requires IsEntry(e)
  {
    e.fields[0].0
  }

  function FirstValue(e: Json): Json
    requires IsEntry(e)
  {
    e.fields[0].1
  }

  /**
    The merge, left to right from `acc`: an object with no entries fails, an
    object contributes its first entry (overwriting an earlier one with the same
    key), any other element is skipped.
  */
  function MergeFrom(acc: map<string, Json>, elems: seq<Json>): Result<map<string, Json>>
    decreases |elems|
  {
    if elems == [] then Ok(acc)
    else if elems[0] == Obj([]) then Err(MalformedResponse)
    else if IsEntry(elems[0]) then MergeFrom(acc[FirstKey(elems[0]) := FirstValue(elems[0])], elems[1..])
    else MergeFrom(acc, elems[1..])
  }

  function Merge(elems: seq<Json>): Result<map<string, Json>>
  {
    MergeFrom(map[], elems)
  }

  /** The flattened decoding: merge, then type the merged object; cursors pass through. */
  function Flattened<T>(raw: RawResponse, decode: map<string, Json> -> Result<T>): Result<Response<T>>
  {
    var merged :- Merge(raw.response);
    var payload :- decode(merged);
    Ok(Response(payload, raw.pagination))
  }

  function DeserializeFlattened<T>(body: Option<Json>, decode: map<string, Json> -> Result<T>): Result<Response<T>>
  {
    var raw :- ParseRawResponse(body);
    Flattened(raw, decode)
  }

  /** The merge as the client runs it: one pass over the array, updating one map. */
  method DecodeFlattened<T>(raw: RawResponse, decode: map<string, Json> -> Result<T>) returns (r: Result<Response<T>>)
    ensures r == Flattened(raw, decode)
    ensures r.Ok? ==> r.value.pagination == raw.pagination
  {
    var merged: map<string, Json> := map[];
    var i := 0;
    while i < |raw.response|
      invariant 0 <= i <= |raw.response|
      invariant MergeFrom(merged, raw.response[i..]) == Merge(raw.response)
    {
      assert raw.response[i..][1..] == raw.response[i + 1..];
      var e := raw.response[i];
      if e.Obj? {
        if e.fields == [] {
          return Err(MalformedResponse);
        }
        var (k, v) := e.fields[0];
        merged := merged[k := v];
      }
      i := i + 1;
    }
    var payload := decode(merged);
    if payload.Err? {
      return Err(payload.error);
    }
    r := Ok(Response(payload.value, raw.pagination));
  }

  /** Reads the reply body and decodes it the flattened way. */
  method DeserializeFlattenedResponse<T>(body: Option<Json>, decode: map<string, Json> -> Result<T>)
    returns (r: Result<Response<T>>)
    ensures r == DeserializeFlattened(body, decode)
  {
    var raw := ParseRawResponse(body);
    if raw.Err? {
      return Err(raw.error);
    }
    r := DecodeFlattened(raw.value, decode);
  }

  // Properties of the merge

  /** The merge fails, and then with "malformed response", exactly when an element is an empty object. */
  lemma {:induction false} MergeFailsIff(acc: map<string, Json>, elems: seq<Json>)
    ensures MergeFrom(acc, elems).Err? <==> Obj([]) in elems
    ensures MergeFrom(acc, elems).Err? ==> MergeFrom(acc, elems).error == MalformedResponse
    decreases |elems|
  {
    if elems != [] {
      assert elems == [elems[0]] + elems[1..];
      if elems[0] != Obj([]) {
        if IsEntry(elems[0]) {
          MergeFailsIff(acc[FirstKey(elems[0]) := FirstValue(elems[0])], elems[1..]);
        } else {
          MergeFailsIff(acc, elems[1..]);
        }
      }
    }
  }

  /** The keys that the elements contribute. */
  function FirstKeys(elems: seq<Json>): set<string>
  {
    set e | e in elems && IsEntry(e) :: FirstKey(e)
  }

  lemma FirstKeysCons(elems: seq<Json>)
    requires elems != []
    ensures FirstKeys(elems) == (if IsEntry(elems[0]) then {FirstKey(elems[0])} else {}) + FirstKeys(elems[1..])
  {
    assert elems == [elems[0]] + elems[1..];
    assert forall e :: e in elems <==> e == elems[0] || e in elems[1..];
  }

  /** A merged map holds the keys it started with and the first keys of the elements, and no others. */
  lemma {:induction false} MergeKeys(acc: map<string, Json>, elems: seq<Json>)
    requires MergeFrom(acc, elems).Ok?
    ensures MergeFrom(acc, elems).value.Keys == acc.Keys + FirstKeys(elems)
    decreases |elems|
  {
    if elems != [] {
      FirstKeysCons(elems);
      if IsEntry(elems[0]) {
        MergeKeys(acc[FirstKey(elems[0]) := FirstValue(elems[0])], elems[1..]);
      } else {
        MergeKeys(acc, elems[1..]);
      }
    }
  }

  /** A key that no element names keeps the value it started with. */
  lemma {:induction false} MergeKeepsUntouched(acc: map<string, Json>, elems: seq<Json>, k: string)
    requires MergeFrom(acc, elems).Ok?
    requires k in acc
    requires forall j :: 0 <= j < |elems| && IsEntry(elems[j]) ==> FirstKey(elems[j]) != k
    ensures k in MergeFrom(acc, elems).value && MergeFrom(acc, elems).value[k] == acc[k]
    decreases |elems|
  {
    if elems != [] {
      assert forall j :: 0 <= j < |elems| - 1 ==> elems[1..][j] == elems[j + 1];
      if IsEntry(elems[0]) {
        MergeKeepsUntouched(acc[FirstKey(elems[0]) := FirstValue(elems[0])], elems[1..], k);
      } else {
        MergeKeepsUntouched(acc, elems[1..], k);
      }
    }
  }

  /** On a repeated first key the last element carrying it wins, since insertion overwrites. */
  lemma {:induction false} MergeLastWins(acc: map<string, Json>, elems: seq<Json>, i: nat)
    requires MergeFrom(acc, elems).Ok?
    requires i < |elems| && IsEntry(elems[i])
    requires forall j :: i < j < |elems| && IsEntry(elems[j]) ==> FirstKey(elems[j]) != FirstKey(elems[i])
    ensures FirstKey(elems[i]) in MergeFrom(acc, elems).value
    ensures MergeFrom(acc, elems).value[FirstKey(elems[i])] == FirstValue(elems[i])
    decreases |elems|
  {
    assert forall j :: 0 <= j < |elems| - 1 ==> elems[1..][j] == elems[j + 1];
    if i == 0 {
      MergeKeepsUntouched(acc[FirstKey(elems[0]) := FirstValue(elems[0])], elems[1..], FirstKey(elems[0]));
    } else if IsEntry(elems[0]) {
      MergeLastWins(acc[FirstKey(elems[0]) := FirstValue(elems[0])], elems[1..], i - 1);
    } else {
      MergeLastWins(acc, elems[1..], i - 1);
    }
  }

  /** No two object elements share a first key. */
  ghost predicate DistinctFirstKeys(elems: seq<Json>)
  {
    forall i, j :: 0 <= i < j < |elems| && IsEntry(elems[i]) && IsEntry(elems[j]) ==>
      FirstKey(elems[i]) != FirstKey(elems[j])
  }

  /**
    With no empty object and no repeated first key, the merge succeeds and holds
    exactly the elements' first entries.
  */
  lemma MergeDistinct(elems: seq<Json>)
    requires Obj([]) !in elems
    requires DistinctFirstKeys(elems)
    ensures Merge(elems).Ok?
    ensures Merge(elems).value.Keys == FirstKeys(elems)
    ensures forall e :: e in elems && IsEntry(e) ==> Merge(elems).value[FirstKey(e)] == FirstValue(e)
  {
    MergeFailsIff(map[], elems);
    MergeKeys(map[], elems);
    forall e | e in elems && IsEntry(e)
      ensures Merge(elems).value[FirstKey(e)] == FirstValue(e)
    {
      var i :| 0 <= i < |elems| && elems[i] == e;
      MergeLastWins(map[], elems, i);
    }
  }

  lemma TwiceInMultiset<T>(s: seq<T>, i: nat, j: nat)
    requires i < j < |s| && s[i] == s[j]
    ensures multiset(s)[s[i]] >= 2
  {
    assert s == s[..j] + s[j..];
    assert s[i] in s[..j];
    assert s[j..] == [s[j]] + s[j + 1..];
  }

  lemma {:induction false} TwoIndices<T>(s: seq<T>, x: T)
    requires multiset(s)[x] >= 2
    ensures exists i, j :: 0 <= i < j < |s| && s[i] == x && s[j] == x
  {
    assert s == [s[0]] + s[1..];
    assert multiset(s) == multiset{s[0]} + multiset(s[1..]);
    if s[0] == x {
      assert x in multiset(s[1..]);
      var k :| 0 <= k < |s| - 1 && s[1..][k] == x;
      assert s[0] == x && s[k + 1] == x;
    } else {
      TwoIndices(s[1..], x);
      var i, j :| 0 <= i < j < |s| - 1 && s[1..][i] == x && s[1..][j] == x;
      assert s[i + 1] == x && s[j + 1] == x;
    }
  }

  /** Two positions of a permutation come from two positions of the original. */
  lemma DistinctSources<T>(a: seq<T>, b: seq<T>, i: nat, j: nat)
    requires multiset(a) == multiset(b)
    requires i < j < |b|
    ensures exists i', j' :: 0 <= i' < |a| && 0 <= j' < |a| && i' != j' && a[i'] == b[i] && a[j'] == b[j]
  {
    if b[i] == b[j] {
      TwiceInMultiset(b, i, j);
      TwoIndices(a, b[i]);
    } else {
      assert b[i] in multiset(a) && b[j] in multiset(a);
      var i' :| 0 <= i' < |a| && a[i'] == b[i];
      var j' :| 0 <= j' < |a| && a[j'] == b[j];
    }
  }

  lemma DistinctPermutation(a: seq<Json>, b: seq<Json>)
    requires multiset(a) == multiset(b)
    requires DistinctFirstKeys(a)
    ensures DistinctFirstKeys(b)
  {
    forall i, j | 0 <= i < j < |b| && IsEntry(b[i]) && IsEntry(b[j])
      ensures FirstKey(b[i]) != FirstKey(b[j])
    {
      DistinctSources(a, b, i, j);
      var i', j' :| 0 <= i' < |a| && 0 <= j' < |a| && i' != j' && a[i'] == b[i] && a[j'] == b[j];
      if i' < j' {
        assert FirstKey(a[i']) != FirstKey(a[j']);
      } else {
        assert FirstKey(a[j']) != FirstKey(a[i']);
      }
    }
  }

  /** With distinct first keys the merge does not depend on the order of the array. */
  lemma MergeOrderIndependent(a: seq<Json>, b: seq<Json>)
    requires multiset(a) == multiset(b)
    requires DistinctFirstKeys(a)
    ensures Merge(a) == Merge(b)
  {
    assert forall e :: e in a <==> e in multiset(a);
    assert forall e :: e in b <==> e in multiset(b);
    MergeFailsIff(map[], a);
    MergeFailsIff(map[], b);
    if Obj([]) !in a {
      DistinctPermutation(a, b);
      MergeDistinct(a);
      MergeDistinct(b);
      var ma, mb := Merge(a).value, Merge(b).value;
      assert FirstKeys(a) == FirstKeys(b);
      forall k | k in ma
        ensures k in mb && ma[k] == mb[k]
      {
        var e :| e in a && IsEntry(e) && FirstKey(e) == k;
      }
      assert ma == mb;
    }
  }

  /** The object elements of the array, in order. */
  function ObjectsOnly(elems: seq<Json>): seq<Json>
  {
    if elems == [] then []
    else (if elems[0].Obj? then [elems[0]] else []) + ObjectsOnly(elems[1..])
  }

  /** Elements that are not objects are skipped: dropping them changes nothing. */
  lemma {:induction false} MergeSkipsNonObjects(acc: map<string, Json>, elems: seq<Json>)
    ensures MergeFrom(acc, elems) == MergeFrom(acc, ObjectsOnly(elems))
    decreases |elems|
  {
    if elems != [] {
      var rest := ObjectsOnly(elems[1..]);
      if elems[0].Obj? {
        assert ObjectsOnly(elems) == [elems[0]] + rest;
        assert ObjectsOnly(elems)[1..] == rest;
        if IsEntry(elems[0]) {
          MergeSkipsNonObjects(acc[FirstKey(elems[0]) := FirstValue(elems[0])], elems[1..]);
        }
      } else {
        assert ObjectsOnly(elems) == rest;
        MergeSkipsNonObjects(acc, elems[1..]);
      }
    }
  }

  // ---------------------------------------------------------------------------
  // Normal decoding: the array is decoded element by element
  // ---------------------------------------------------------------------------

  /** Decoding a JSON array into a list: in order, stopping at the first element that fails. */
  function DecodeEach<T>(items: seq<Json>, decode: Json -> Result<T>): (r: Result<seq<T>>)
    ensures r.Ok? <==> forall i :: 0 <= i < |items| ==> decode(items[i]).Ok?
    ensures r.Ok? ==> |r.value| == |items| && forall i :: 0 <= i < |items| ==> decode(items[i]) == Ok(r.value[i])
    ensures r.Err? ==> exists i :: 0 <= i < |items| && decode(items[i]) == Err(r.error) &&
                                   forall j :: 0 <= j < i ==> decode(items[j]).Ok?
  {
    if items == [] then Ok([])
    else
      var head :- decode(items[0]);
      var tail :- DecodeEach(items[1..], decode);
      Ok([head] + tail)
  }

  /** The normal decoding: list in, list out, same order and length; cursors pass through. */
  function DecodeNormal<T>(raw: RawResponse, decode: Json -> Result<T>): (r: Result<Response<seq<T>>>)
    ensures r.Ok? <==> forall i :: 0 <= i < |raw.response| ==> decode(raw.response[i]).Ok?
    ensures r.Ok? ==> r.value.pagination == raw.pagination
    ensures r.Ok? ==> |r.value.response| == |raw.response| &&
                      forall i :: 0 <= i < |raw.response| ==> decode(raw.response[i]) == Ok(r.value.response[i])
  {
    var items :- DecodeEach(raw.response, decode);
    Ok(Response(items, raw.pagination))
  }

  function DeserializeNormal<T>(body: Option<Json>, decode: Json -> Result<T>): Result<Response<seq<T>>>
  {
    var raw :- ParseRawResponse(body);
    DecodeNormal(raw, decode)
  }

  /**
    The normal decoding hands the array through unchanged when the elements
    need no typing, that is, when each element decodes as itself.
  */
  lemma NormalPassthrough(raw: RawResponse)
    ensures DecodeNormal(raw, (j: Json) => Ok(j)) == Ok(Response(raw.response, raw.pagination))
  {
    var r := DecodeNormal(raw, (j: Json) => Ok(j));
    assert r.value.response == raw.response;
  }
}
