/**
 * VectorStorageService (src/infrastructure/storage/vector_storage.py).
 *
 * The bucket is a map from object key to stored object. An object is either a record
 * `save_vector` wrote, a JSON object some other producer wrote (reduced to its keys, in
 * order, and its featureVector array if it has one), or a body that is not JSON. A key
 * absent from the map is S3's NoSuchKey (`get_object`) or 404 (`head_object`).
 */
module VectorStorage {
  import opened Wrappers
  import opened Exceptions

  const DefaultVectorPrefix := "pet-vectors"
  const RecordVersion := "1.0"

  /** `f"{vector_prefix}/{pet_did}.json"`, the key of all three operations. */
  function ObjectKey(vectorPrefix: string, petDid: string): (k: string)
    ensures vectorPrefix + "/" <= k
    ensures |k| == |vectorPrefix| + |petDid| + 6 && k[|k| - 5..] == ".json"
    ensures k[|vectorPrefix| + 1..|k| - 5] == petDid
  {
    vectorPrefix + "/" + petDid + ".json"
  }

  /** Under the default prefix a pet's vector is stored as `pet-vectors/<PetDID>.json`. */
  lemma ObjectKeyExample()
    ensures ObjectKey(DefaultVectorPrefix, "did:pet:42") == "pet-vectors/did:pet:42.json"
  {
  }

  /** The key names the pet: two pets under one prefix never share an object. */
  lemma ObjectKeyInjective(vectorPrefix: string, petDid: string, otherPetDid: string)
    requires ObjectKey(vectorPrefix, petDid) == ObjectKey(vectorPrefix, otherPetDid)
    ensures petDid == otherPetDid
  {
    var key := ObjectKey(vectorPrefix, petDid);
    var start := |vectorPrefix| + 1;
    assert |petDid| == |otherPetDid|;
    assert petDid == key[start..start + |petDid|];
    assert otherPetDid == ObjectKey(vectorPrefix, otherPetDid)[start..start + |otherPetDid|];
  }

  /** The JSON record `save_vector` uploads; `createdAt` is the clock reading. */
  datatype VectorRecord = VectorRecord(
    petDid: string, featureVector: seq<real>, vectorSize: int, createdAt: string, version: string)

  /** The record's keys, in the order of the dictionary literal. */
  const RecordKeys := ["petDID", "featureVector", "vectorSize", "createdAt", "version"]

  function NewRecord(petDid: string, vector: seq<real>, createdAt: string): (rec: VectorRecord)
    ensures rec.petDid == petDid && rec.featureVector == vector && rec.vectorSize == |vector|
    ensures rec.createdAt == createdAt && rec.version == RecordVersion
  {
    VectorRecord(petDid, vector, |vector|, createdAt, RecordVersion)
  }

  /** A decoded JSON object, as far as the reader looks at it. */
  datatype JsonDocument = JsonDocument(keys: seq<string>, featureVector: Option<seq<real>>)

  datatype StoredObject =
    | Saved(record: VectorRecord)
    | Foreign(document: JsonDocument)
    | NotJson(reason: string)

  const JsonErrorPrefix := "vector JSON format error: "
  const EmptyStoredVectorPrefix := "stored vector is empty; check the JSON structure: keys="

  /** `json.loads` on the object's body. */
  function Decode(obj: StoredObject): (r: Result<JsonDocument>)
    ensures obj.Saved? ==> r == Ok(JsonDocument(RecordKeys, Some(obj.record.featureVector)))
    ensures obj.Foreign? ==> r == Ok(obj.document)
    ensures obj.NotJson? ==> r == Err(PlainException(JsonErrorPrefix + obj.reason))
  {
    match obj
    case Saved(record) => Ok(JsonDocument(RecordKeys, Some(record.featureVector)))
    case Foreign(document) => Ok(document)
    case NotJson(reason) => Err(PlainException(JsonErrorPrefix + reason))
  }

  /** Python's `repr` of a list of plain strings: `['a', 'b']`. */
  function QuotedList(items: seq<string>): string
  {
    "[" + QuotedItems(items) + "]"
  }

  function QuotedItems(items: seq<string>): string
  {
    if |items| == 0 then ""
    else if |items| == 1 then "'" + items[0] + "'"
    else "'" + items[0] + "', " + QuotedItems(items[1..])
  }

  /** `get_vector_by_pet_did` against the bucket `objects`. */
  function ReadVector(objects: map<string, StoredObject>, vectorPrefix: string, petDid: string): (r: Result<Option<seq<real>>>)
    ensures r == Ok(None) <==> ObjectKey(vectorPrefix, petDid) !in objects
    ensures r.Ok? && r.value.Some? ==> |r.value.value| > 0
    ensures ObjectKey(vectorPrefix, petDid) in objects ==>
      var decoded := Decode(objects[ObjectKey(vectorPrefix, petDid)]);
      (decoded.Err? ==> r == Err(decoded.error)) &&
      (decoded.Ok? ==>
        var stored := decoded.value.featureVector;
        (stored.Some? && |stored.value| > 0 ==> r == Ok(Some(stored.value))) &&
        (stored.None? || |stored.value| == 0 ==>
          r == Err(PlainException(EmptyStoredVectorPrefix + QuotedList(decoded.value.keys)))))
  {
    var key := ObjectKey(vectorPrefix, petDid);
    if key !in objects then Ok(None)
    else
      match Decode(objects[key])
      case Err(e) => Err(e)
      case Ok(document) =>
        var vector := document.featureVector.GetOr([]);
        if |vector| == 0 then Err(PlainException(EmptyStoredVectorPrefix + QuotedList(document.keys)))
        else Ok(Some(vector))
  }

  /** The reader returns the stored featureVector as it is, whatever the record's vectorSize says. */
  lemma ReadIgnoresVectorSize(objects: map<string, StoredObject>, vectorPrefix: string, petDid: string,
                              record: VectorRecord, size: int)
    ensures var key := ObjectKey(vectorPrefix, petDid);
      ReadVector(objects[key := Saved(record)], vectorPrefix, petDid) ==
      ReadVector(objects[key := Saved(record.(vectorSize := size))], vectorPrefix, petDid)
  {
  }

  /** Saving and then reading the same pet gives back the vector, or the empty-vector error for []. */
  lemma SaveThenRead(objects: map<string, StoredObject>, vectorPrefix: string, petDid: string,
                     vector: seq<real>, createdAt: string)
    ensures var key := ObjectKey(vectorPrefix, petDid);
      var after := objects[key := Saved(NewRecord(petDid, vector, createdAt))];
      ReadVector(after, vectorPrefix, petDid) ==
        if |vector| > 0 then Ok(Some(vector)) else Err(PlainException(EmptyStoredVectorPrefix + QuotedList(RecordKeys)))
  {
  }

  /** Saving one pet's vector changes what is read for no other pet. */
  lemma SaveKeepsOthers(objects: map<string, StoredObject>, vectorPrefix: string, petDid: string,
                        vector: seq<real>, createdAt: string, otherPetDid: string)
    requires otherPetDid != petDid
    ensures var key := ObjectKey(vectorPrefix, petDid);
      var after := objects[key := Saved(NewRecord(petDid, vector, createdAt))];
      ReadVector(after, vectorPrefix, otherPetDid) == ReadVector(objects, vectorPrefix, otherPetDid)
  {
    if ObjectKey(vectorPrefix, otherPetDid) == ObjectKey(vectorPrefix, petDid) {
      ObjectKeyInjective(vectorPrefix, otherPetDid, petDid);
      assert false;
    }
  }

  class VectorStorageService {
    const vectorPrefix: string
    /** The bucket's objects. */
    var objects: map<string, StoredObject>

    constructor(vectorPrefix: string, objects: map<string, StoredObject>)
      ensures this.vectorPrefix == vectorPrefix && this.objects == objects
    {
      this.vectorPrefix := vectorPrefix;
      this.objects := objects;
    }

    method GetVectorByPetDid(petDid: string) returns (r: Result<Option<seq<real>>>)
      ensures r == ReadVector(objects, vectorPrefix, petDid)
      ensures r == Ok(None) <==> ObjectKey(vectorPrefix, petDid) !in objects
    {
      var key := ObjectKey(vectorPrefix, petDid);
      if key !in objects {
        return Ok(None);
      }
      var decoded := Decode(objects[key]);
      if decoded.Err? {
        return Err(decoded.error);
      }
      var vector := decoded.value.featureVector.GetOr([]);
      if |vector| == 0 {
        return Err(PlainException(EmptyStoredVectorPrefix + QuotedList(decoded.value.keys)));
      }
      return Ok(Some(vector));
    }

    method SaveVector(petDid: string, vector: seq<real>, createdAt: string) returns (saved: bool)
      modifies this
      ensures saved
      ensures objects == old(objects)[ObjectKey(vectorPrefix, petDid) := Saved(NewRecord(petDid, vector, createdAt))]
      ensures ReadVector(objects, vectorPrefix, petDid) ==
        if |vector| > 0 then Ok(Some(vector)) else Err(PlainException(EmptyStoredVectorPrefix + QuotedList(RecordKeys)))
    {
      var key := ObjectKey(vectorPrefix, petDid);
      var record := NewRecord(petDid, vector, createdAt);
      objects := objects[key := Saved(record)];
      SaveThenRead(old(objects), vectorPrefix, petDid, vector, createdAt);
      return true;
    }

    method CheckVectorExists(petDid: string) returns (present: bool)
      ensures present <==> ObjectKey(vectorPrefix, petDid) in objects
    {
      return ObjectKey(vectorPrefix, petDid) in objects;
    }
  }
}
