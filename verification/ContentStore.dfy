// Blobs stored under the hash of their content, through an uploader that retries.
module ContentStore {
  import opened Types

  type Objects = map<string, Bytes>

  predicate ContentAddressed(hash: Bytes -> string, objects: Objects) {
    forall name :: name in objects ==> hash(objects[name]) == name
  }

  predicate Extends(objects: Objects, objects': Objects) {
    forall name :: name in objects ==> name in objects' && objects'[name] == objects[name]
  }

  // Storing under the hash keeps the store content addressed and changes no object that was there.
  lemma StoringExtends(hash: Bytes -> string, objects: Objects, data: Bytes)
    requires CollisionFree(hash) && ContentAddressed(hash, objects)
    ensures ContentAddressed(hash, objects[hash(data) := data]) && Extends(objects, objects[hash(data) := data])
  {
    var name := hash(data);
    if name in objects {
      assert hash(objects[name]) == hash(data);
    }
  }

  class Reader {
    const data: Bytes
    var position: nat

    constructor (data: Bytes, position: nat)
      ensures this.data == data && this.position == position
    {
      this.data, this.position := data, position;
    }

    // What a read to the end would give.
    function Rest(): Bytes
      reads this
    {
      if position <= |data| then data[position..] else []
    }

    method Rewind()
      modifies this
      ensures position == 0
    {
      position := 0;
    }

    method Read() returns (content: Bytes)
      modifies this
      ensures content == old(Rest()) && Rest() == []
    {
      content := Rest();
      position := if position <= |data| then |data| else position;
    }

    method Skip(n: nat)
      modifies this
    {
      position := position + n;
    }
  }

  // One try to upload. A failed one has read some of the data, and may have stored all of it nevertheless.
  datatype Attempt = SeekFails | UploadFails(consumed: nat, landed: bool) | UploadWorks

  // One try to ask for an object. An answer may deny an object that is there, never invent one.
  datatype Query = QueryFails | Answers(honest: bool)

  datatype Failure = SeekError | HashError | ExistsError | UploadError | FetchError

  // The first try that does not fail retryably, and hence the last one made, is at k.
  predicate EndsAt(attempts: seq<Attempt>, k: nat) {
    k < |attempts| && !attempts[k].UploadFails? && forall i :: 0 <= i < k ==> attempts[i].UploadFails?
  }

  predicate UploadSucceeds(attempts: seq<Attempt>) {
    exists k: nat :: k < |attempts| && EndsAt(attempts, k) && attempts[k].UploadWorks?
  }

  lemma EndDecides(attempts: seq<Attempt>, k: nat)
    requires EndsAt(attempts, k)
    ensures UploadSucceeds(attempts) <==> attempts[k].UploadWorks?
  {
    assert forall j: nat :: EndsAt(attempts, j) ==> j == k;
  }

  // The answer of the first query that does not fail, if the retries last that long.
  predicate AnsweredAt(queries: seq<Query>, k: nat) {
    k < |queries| && queries[k].Answers? && forall i :: 0 <= i < k ==> queries[i].QueryFails?
  }

  predicate Answered(queries: seq<Query>, honest: bool) {
    exists k: nat :: k < |queries| && AnsweredAt(queries, k) && queries[k].honest == honest
  }

  // The stores of the competition and of the archive.
  datatype Stores = Stores(blobs: Objects, archive: Objects)

  // What one operation did to the stores, if it got as far as that.
  datatype Change = Stored(data: Bytes) | Archived(data: Bytes) | Copied(name: string)

  predicate Possible(s: Stores, c: Change) { c.Copied? ==> c.name in s.blobs }

  function Changed(hash: Bytes -> string, s: Stores, c: Change): Stores
    requires Possible(s, c)
  {
    match c
    case Stored(data) => s.(blobs := s.blobs[hash(data) := data])
    case Archived(data) => s.(archive := s.archive[hash(data) := data])
    case Copied(name) => s.(archive := s.archive[name := s.blobs[name]])
  }

  // At most one change leads from the one pair of stores to the other.
  ghost predicate OneChange(hash: Bytes -> string, s: Stores, s': Stores) {
    s' == s || exists c :: Possible(s, c) && s' == Changed(hash, s, c)
  }

  // Storing a buffer is a change of either store, whatever the other holds; so is copying an object.
  lemma StoredIsAChange(hash: Bytes -> string, before: Objects, after: Objects, data: Bytes)
    requires after == before || after == before[hash(data) := data]
    ensures forall other: Objects :: OneChange(hash, Stores(before, other), Stores(after, other))
    ensures forall other: Objects :: OneChange(hash, Stores(other, before), Stores(other, after))
  {
    if after != before {
      forall other: Objects
        ensures OneChange(hash, Stores(before, other), Stores(after, other))
        ensures OneChange(hash, Stores(other, before), Stores(other, after))
      {
        assert Possible(Stores(before, other), Stored(data)) && Possible(Stores(other, before), Archived(data));
        assert Changed(hash, Stores(before, other), Stored(data)) == Stores(after, other);
        assert Changed(hash, Stores(other, before), Archived(data)) == Stores(other, after);
      }
    }
  }

  lemma CopiedIsAChange(hash: Bytes -> string, blobs: Objects, before: Objects, after: Objects, name: string)
    requires after == before || (name in blobs && after == before[name := blobs[name]])
    ensures OneChange(hash, Stores(blobs, before), Stores(blobs, after))
  {
    if after != before {
      assert Changed(hash, Stores(blobs, before), Copied(name)) == Stores(blobs, after);
    }
  }

  // What else may go wrong in Hashed.
  datatype Faults = Faults(firstSeek: bool, hash: bool, secondSeek: bool)

  class Store {
    const hash: Bytes -> string
    var objects: Objects

    constructor (hash: Bytes -> string)
      ensures this.hash == hash && objects == map[]
    {
      this.hash, objects := hash, map[];
    }

    ghost predicate Valid()
      reads this
    {
      CollisionFree(hash) && ContentAddressed(hash, objects)
    }

    // One upload: stores what the reader still has, from where it is.
    method Put(reader: Reader, name: string, attempt: Attempt) returns (ok: bool)
      modifies this`objects, reader
      ensures ok == attempt.UploadWorks?
      ensures objects == if attempt.UploadWorks? || (attempt.UploadFails? && attempt.landed)
                         then old(objects)[name := old(reader.Rest())] else old(objects)
    {
      match attempt {
        case UploadWorks =>
          var content := reader.Read();
          objects := objects[name := content];
          ok := true;
        case UploadFails(consumed, landed) =>
          if landed {
            objects := objects[name := reader.Rest()];
          }
          reader.Skip(consumed);
          ok := false;
        case SeekFails =>
          ok := false;
      }
    }

    // Retries until an upload works. Each try starts at the beginning, whatever earlier ones have read.
    method Upload(reader: Reader, name: string, attempts: seq<Attempt>) returns (ok: bool)
      modifies this`objects, reader
      ensures ok == UploadSucceeds(attempts)
      ensures objects == old(objects) || objects == old(objects)[name := reader.data]
      ensures ok ==> objects == old(objects)[name := reader.data]
    {
      ok := false;
      var i := 0;
      while i < |attempts|
        invariant 0 <= i <= |attempts|
        invariant forall j :: 0 <= j < i ==> attempts[j].UploadFails?
        invariant objects == old(objects) || objects == old(objects)[name := reader.data]
      {
        if attempts[i].SeekFails? {
          EndDecides(attempts, i);
          return false;
        }
        reader.Rewind();
        var done := Put(reader, name, attempts[i]);
        if done {
          EndDecides(attempts, i);
          return true;
        }
        i := i + 1;
      }
    }

    method Exists(name: string, queries: seq<Query>) returns (r: Option<bool>)
      ensures r == Some(true) <==> Answered(queries, true) && name in objects
      ensures r.None? <==> !Answered(queries, true) && !Answered(queries, false)
    {
      var i := 0;
      while i < |queries|
        invariant 0 <= i <= |queries|
        invariant forall j :: 0 <= j < i ==> queries[j].QueryFails?
      {
        if queries[i].Answers? {
          assert AnsweredAt(queries, i);
          return Some(queries[i].honest && name in objects);
        }
        i := i + 1;
      }
      r := None;
    }

    // Stores the whole buffer under its hash, wherever the reader was and whatever failed tries consumed.
    method Hashed(reader: Reader, queries: seq<Query>, attempts: seq<Attempt>, faults: Faults)
      returns (r: Result<string, Failure>)
      requires Valid()
      modifies this`objects, reader
      ensures Valid() && Extends(old(objects), objects)
      ensures objects == old(objects) || objects == old(objects)[hash(reader.data) := reader.data]
      ensures forall archive: Objects :: OneChange(hash, Stores(old(objects), archive), Stores(objects, archive))
      ensures forall blobs: Objects :: OneChange(hash, Stores(blobs, old(objects)), Stores(blobs, objects))
      ensures r.Ok? ==> r.value == hash(reader.data) && r.value in objects && objects[r.value] == reader.data
      ensures var found := Answered(queries, true) && hash(reader.data) in old(objects);
              r.Ok? <==> !faults.firstSeek && !faults.hash && (Answered(queries, true) || Answered(queries, false))
                         && (found || (!faults.secondSeek && UploadSucceeds(attempts)))
    {
      if faults.firstSeek {
        return Error(SeekError);
      }
      reader.Rewind();
      if faults.hash {
        return Error(HashError);
      }
      var content := reader.Read();
      assert content == reader.data;
      var name := hash(content);
      StoringExtends(hash, objects, reader.data);
      var found := Exists(name, queries);
      if found.None? {
        return Error(ExistsError);
      }
      if found.value {
        assert hash(objects[name]) == hash(reader.data);
        return Ok(name);
      }
      if faults.secondSeek {
        return Error(SeekError);
      }
      reader.Rewind();
      var ok := Upload(reader, name, attempts);
      StoredIsAChange(hash, old(objects), objects, reader.data);
      if !ok {
        return Error(UploadError);
      }
      r := Ok(name);
    }

    // Copies a worker's artifact to the archive under the name it has.
    method CopyTo(archive: Store, name: string, fetchFails: bool, attempts: seq<Attempt>)
      returns (r: Result<string, Failure>)
      requires Valid() && archive.Valid() && archive.hash == hash && archive != this
      modifies archive`objects
      ensures archive.Valid() && Extends(old(archive.objects), archive.objects)
      ensures r.Ok? <==> !fetchFails && name in objects && UploadSucceeds(attempts)
      ensures r.Ok? ==> name in archive.objects && archive.objects[name] == objects[name]
      ensures archive.objects == old(archive.objects)
              || (name in objects && archive.objects == old(archive.objects)[name := objects[name]])
      ensures OneChange(hash, Stores(objects, old(archive.objects)), Stores(objects, archive.objects))
    {
      if fetchFails || name !in objects {
        return Error(FetchError);
      }
      var body := objects[name];
      assert hash(body) == name;
      StoringExtends(hash, archive.objects, body);
      var buffer := new Reader(body, 0);
      var ok := archive.Upload(buffer, name, attempts);
      CopiedIsAChange(hash, objects, old(archive.objects), archive.objects, name);
      if !ok {
        return Error(UploadError);
      }
      r := Ok(name);
    }
  }

  /* ------------------------------------------------------- whole runs */

  predicate Leads(hash: Bytes -> string, s: Stores, changes: seq<Change>, s': Stores)
    decreases |changes|
  {
    if changes == [] then s' == s
    else Possible(s, changes[0]) && Leads(hash, Changed(hash, s, changes[0]), changes[1..], s')
  }

  // Over any run every object's name is the hash of its content, no object ever changes or goes away,
  // and the two stores never hold different contents under one name.
  lemma {:induction false} RunsKeepContent(hash: Bytes -> string, s: Stores, changes: seq<Change>, s': Stores)
    requires CollisionFree(hash) && ContentAddressed(hash, s.blobs) && ContentAddressed(hash, s.archive)
    requires Leads(hash, s, changes, s')
    ensures ContentAddressed(hash, s'.blobs) && ContentAddressed(hash, s'.archive)
    ensures Extends(s.blobs, s'.blobs) && Extends(s.archive, s'.archive)
    ensures forall name :: name in s'.blobs && name in s'.archive ==> s'.blobs[name] == s'.archive[name]
    decreases |changes|
  {
    if changes == [] {
      forall name | name in s.blobs && name in s.archive ensures s.blobs[name] == s.archive[name] {
        assert hash(s.blobs[name]) == hash(s.archive[name]);
      }
    } else {
      var c := changes[0];
      match c {
        case Stored(data) => StoringExtends(hash, s.blobs, data);
        case Archived(data) => StoringExtends(hash, s.archive, data);
        case Copied(name) =>
          assert hash(s.blobs[name]) == name;
          StoringExtends(hash, s.archive, s.blobs[name]);
      }
      RunsKeepContent(hash, Changed(hash, s, c), changes[1..], s');
    }
  }

  /* ------------------------------------------------------- retrying */

  // A failed try is followed by another: what comes after any number of them decides, if anything does.
  lemma TriesGoOn(failed: seq<Attempt>, rest: seq<Attempt>)
    requires forall i :: 0 <= i < |failed| ==> failed[i].UploadFails?
    ensures UploadSucceeds(failed + rest) <==> rest != [] && (rest[0].UploadWorks? || UploadSucceeds(rest))
    ensures rest != [] && rest[0].UploadWorks? ==> UploadSucceeds(rest)
    ensures rest != [] && rest[0].SeekFails? ==> !UploadSucceeds(rest)
  {
    var all := failed + rest;
    if rest != [] && !rest[0].UploadFails? {
      assert all[|failed|] == rest[0];
      EndDecides(all, |failed|);
      EndDecides(rest, 0);
    } else {
      if k: nat :| k < |all| && EndsAt(all, k) && all[k].UploadWorks? {
        assert k >= |failed|;
        assert EndsAt(rest, k - |failed|) by {
          assert forall i :: 0 <= i < k - |failed| ==> rest[i] == all[|failed| + i];
        }
      }
      if k: nat :| k < |rest| && EndsAt(rest, k) && rest[k].UploadWorks? {
        assert EndsAt(all, |failed| + k) && all[|failed| + k].UploadWorks?;
      }
    }
  }

  // So for questions: the first answer counts, after any number of failures.
  lemma QueriesGoOn(failed: seq<Query>, rest: seq<Query>, honest: bool)
    requires forall i :: 0 <= i < |failed| ==> failed[i].QueryFails?
    ensures rest != [] && rest[0].Answers? ==> (Answered(failed + rest, honest) <==> rest[0].honest == honest)
    ensures rest == [] ==> !Answered(failed + rest, honest)
  {
    var all := failed + rest;
    if rest != [] && rest[0].Answers? {
      assert all[|failed|] == rest[0];
      assert AnsweredAt(all, |failed|);
      assert forall k: nat :: AnsweredAt(all, k) ==> k == |failed|;
    } else if rest == [] {
      assert all == failed;
    }
  }
}
