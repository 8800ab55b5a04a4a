/**
  `getNextId` exactly as utils.js:17-53 writes it, for contrast with the corrected
  counter step in module Counter. Three lines do not do what the surrounding code
  evidently means:
  - utils.js:27 rejects a failed lookup with `err1`, the connect error, which is null
    on that path, so the caller receives no error;
  - utils.js:36 renders `doc2.next` from the insert result, which has no `next`
    field, so the first identifier ends in the text "undefined";
  - utils.js:40-41 read `doc1`, which is not declared (the record is `doc`), so every
    call for an existing record throws a ReferenceError before the update is sent.
 */
module AsWritten {
  import opened Wrappers
  import opened IdFormat
  import opened Counter

  /** How the promise returned by the source settles, or the callback throwing instead. */
  datatype Settled = Resolved(id: string) | Rejected(reason: Option<StoreError>) | Thrown

  /**
    `generateId(name, length, undefined)`: `undefined > 0` is false, so no digit is
    counted and `length` zeros are added; `prefix + undefined` appends "undefined".
   */
  function RenderUndefined(name: string, length: int): (r: string)
    ensures var p, z := |Prefix(name)|, if length > 0 then length else 0;
      && |r| == p + z + 9
      && r[..p] == Prefix(name)
      && (forall i :: p <= i < p + z ==> r[i] == '0')
      && r[p + z..] == "undefined"
  {
    var p, z := Prefix(name), Zeros(if length > 0 then length else 0);
    ConcatAssoc(p, z, "undefined");
    SplitAfter(p, z + "undefined");
    SplitAfter(p + z, "undefined");
    p + (z + "undefined")
  }

  /** The source's `getNextId`: how its promise settles, and the store afterwards. */
  function GetNextIdAsWritten(counters: map<string, nat>, collection: string, fault: Option<Stage>): (r: (Settled, map<string, nat>))
    // an identifier is issued only for a collection without a record, and then 1 is stored
    ensures r.0.Resolved? <==> fault == None && collection !in counters
    ensures r.0.Resolved? ==> r.0.id == RenderUndefined(collection, IdWidth) && r.1 == counters[collection := 1]
    ensures !r.0.Resolved? ==> r.1 == counters
    // a record that exists makes the callback throw, whether or not the update would fail
    ensures collection in counters && fault != Some(Connect) && fault != Some(Find) ==> r.0 == Thrown
    // a failed connect or insert rejects with its own error; a failed lookup with none
    ensures fault == Some(Connect) ==> r.0 == Rejected(Some(ConnectFailed))
    ensures collection !in counters && fault == Some(Write) ==> r.0 == Rejected(Some(InsertFailed))
    ensures fault == Some(Find) ==> r.0 == Rejected(None)
  {
    if fault == Some(Connect) then (Rejected(Some(ConnectFailed)), counters)
    else if fault == Some(Find) then (Rejected(None), counters)
    else if collection !in counters then
      assert fault.Some? ==> fault.value.Write?;
      if fault == Some(Write) then (Rejected(Some(InsertFailed)), counters)
      else (Resolved(RenderUndefined(collection, IdWidth)), counters[collection := 1])
    else (Thrown, counters)
  }

  /**
    The first identifier the source hands out for a collection does not parse back
    to a sequence value, whereas the intended one, RenderId(collection, 8, 1), parses
    back to 1.
   */
  lemma FirstIdAsWrittenUnreadable(counters: map<string, nat>, collection: string)
    requires collection !in counters
    ensures GetNextIdAsWritten(counters, collection, None).0.Resolved?
    ensures ParseId(collection, GetNextIdAsWritten(counters, collection, None).0.id) == None
    ensures ParseId(collection, RenderId(collection, IdWidth, 1)) == Some(1)
  {
    UndefinedUnreadable(collection, IdWidth);
    RoundTrip(collection, IdWidth, 1);
  }

  /** However many zeros precede it, the text "undefined" is not a sequence value. */
  lemma UndefinedUnreadable(name: string, length: int)
    ensures ParseId(name, RenderUndefined(name, length)) == None
  {
    var k: nat := if length > 0 then length else 0;
    var tail := Zeros(k) + "undefined";
    assert RenderUndefined(name, length) == Prefix(name) + tail by {
      ConcatAssoc(Prefix(name), Zeros(k), "undefined");
    }
    SplitAfter(Prefix(name), tail);
    StripZerosBefore(k, "undefined");
    assert !AllDigits("undefined") by {
      assert !IsDigit("undefined"[0]);
    }
  }

  /** A failed lookup rejects with no error at all: the connect error is null there. */
  lemma LookupFailureAsWrittenLosesError(counters: map<string, nat>, collection: string)
    ensures GetNextIdAsWritten(counters, collection, Some(Find)) == (Rejected(None), counters)
  {
  }

  /**
    Once a collection has a record, every further call throws and writes nothing, so
    the source never hands out a second identifier; the corrected step hands out 1 and
    then 2.
   */
  lemma SecondCallAsWrittenThrows(counters: map<string, nat>, collection: string)
    requires collection !in counters
    ensures var after := GetNextIdAsWritten(counters, collection, None).1;
      && GetNextIdAsWritten(after, collection, None) == (Thrown, after)
      && after[collection] == 1
    ensures Issued(counters, [collection, collection]) == [1, 2]
  {
    assert [collection, collection][1..] == [collection];
  }
}
