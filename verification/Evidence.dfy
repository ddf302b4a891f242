/**
 * Evidence documents of src/predictor/data/storage.py: the migration to one row per question and url,
 * and adding documents under the unique index.
 */
module Evidence {
  import opened Wrappers

  /** NULL columns are None. */
  datatype Document = Document(question: Option<nat>, url: Option<string>, source: string, title: string,
    content: Option<string>)

  datatype Key = Key(question: Option<nat>, url: string)

  type DocumentTable = map<nat, Document>

  /** Rows of curated_documents by id: the document each refers to. */
  type References = map<nat, Option<nat>>

  /** Rows without a url belong to no group; a missing question groups with itself. */
  predicate InGroup(d: Document, key: Key) {
    d.url == Some(key.url) && d.question == key.question
  }

  function KeyOf(d: Document): Key
    requires d.url.Some?
  {
    Key(d.question, d.url.value)
  }

  predicate HasContent(d: Document) {
    d.content.Some? && d.content.value != ""
  }

  function GroupKeys(docs: DocumentTable): set<Key> {
    set id | id in docs && docs[id].url.Some? :: KeyOf(docs[id])
  }

  // ----- What the migration does -----

  type Keepers = map<Key, nat>

  predicate IsKeeper(docs: DocumentTable, key: Key, keep: nat) {
    && keep in docs && InGroup(docs[keep], key)
    && (HasContent(docs[keep]) || forall id :: id in docs && InGroup(docs[id], key) ==> !HasContent(docs[id]))
  }

  /** One keeper per group, with content whenever any row of the group has content. */
  ghost predicate AreKeepers(docs: DocumentTable, keepers: Keepers) {
    && (forall key :: key in keepers <==> key in GroupKeys(docs))
    && (forall key :: key in keepers ==> IsKeeper(docs, key, keepers[key]))
  }

  predicate Removed(docs: DocumentTable, keepers: Keepers, id: nat) {
    id in docs && docs[id].url.Some? && KeyOf(docs[id]) in keepers && keepers[KeyOf(docs[id])] != id
  }

  function Remaining(docs: DocumentTable, keepers: Keepers): DocumentTable {
    map id | id in docs && !Removed(docs, keepers, id) :: docs[id]
  }

  function Redirect(docs: DocumentTable, keepers: Keepers, ref: Option<nat>): Option<nat> {
    if ref.Some? && Removed(docs, keepers, ref.value) then Some(keepers[KeyOf(docs[ref.value])]) else ref
  }

  function Redirected(docs: DocumentTable, keepers: Keepers, refs: References): References {
    map c | c in refs :: Redirect(docs, keepers, refs[c])
  }

  ghost predicate Migrated(docs: DocumentTable, refs: References, docsAfter: DocumentTable, refsAfter: References) {
    exists keepers ::
      AreKeepers(docs, keepers) && docsAfter == Remaining(docs, keepers) && refsAfter == Redirected(docs, keepers, refs)
  }

  /** Each group has a single row. */
  ghost predicate OnePerGroup(docs: DocumentTable) {
    forall i, j, key :: i in docs && j in docs && InGroup(docs[i], key) && InGroup(docs[j], key) ==> i == j
  }

  /** What the unique index enforces: rows without a question or url never collide. */
  ghost predicate IndexHolds(docs: DocumentTable) {
    forall i, j :: i in docs && j in docs && Collide(docs[i], docs[j]) ==> i == j
  }

  predicate Collide(d: Document, e: Document) {
    d.question.Some? && d.url.Some? && d.question == e.question && d.url == e.url
  }

  // ----- What the migration means -----

  /** Every group keeps exactly one row, an unchanged one, with content if any row had it. */
  lemma MigrationKeepsOnePerGroup(docs: DocumentTable, refs: References, docsAfter: DocumentTable,
                                  refsAfter: References)
    requires Migrated(docs, refs, docsAfter, refsAfter)
    ensures OnePerGroup(docsAfter) && IndexHolds(docsAfter)
    ensures forall id :: id in docsAfter ==> id in docs && docsAfter[id] == docs[id]
    ensures forall id :: id in docs && docs[id].url.None? ==> id in docsAfter
    ensures forall id :: id in docs && docs[id].url.Some? ==> Represented(docs, docsAfter, id)
  {
    hide Redirected, IsKeeper, InGroup;
    var keepers :| AreKeepers(docs, keepers) && docsAfter == Remaining(docs, keepers)
      && refsAfter == Redirected(docs, keepers, refs);
    forall id | id in docs && docs[id].url.Some? ensures Represented(docs, docsAfter, id) {
      GroupIsRepresented(docs, keepers, id);
    }
    forall i, j, key | i in docsAfter && j in docsAfter && InGroup(docsAfter[i], key) && InGroup(docsAfter[j], key)
      ensures i == j
    {
      GroupHasOneRow(docs, keepers, key, i);
      GroupHasOneRow(docs, keepers, key, j);
    }
    OnePerGroupIsUnique(docsAfter);
  }

  /** The same on the columns: which rows stay for a question and url, and what curated references then name. */
  lemma MigrationOnColumns(docs: DocumentTable, refs: References, docsAfter: DocumentTable, refsAfter: References)
    requires Migrated(docs, refs, docsAfter, refsAfter)
    ensures forall i, j ::
      i in docsAfter && j in docsAfter && docsAfter[i].url.Some? && docsAfter[i].url == docsAfter[j].url
      && docsAfter[i].question == docsAfter[j].question ==>
        i == j
    ensures forall id :: id in docs ==> exists keep ::
      && SameSource(docs, docsAfter, id, keep)
      && (docs[id].content.Some? && docs[id].content.value != "" ==>
            docsAfter[keep].content.Some? && docsAfter[keep].content.value != "")
    ensures forall c :: c in refs && refs[c].Some? && refs[c].value in docs ==>
      c in refsAfter && refsAfter[c].Some? && SameSource(docs, docsAfter, refs[c].value, refsAfter[c].value)
    ensures forall c :: c in refs && (refs[c].Some? ==> refs[c].value in docsAfter || refs[c].value !in docs) ==>
      c in refsAfter && refsAfter[c] == refs[c]
  {
    MigrationKeepsOnePerGroup(docs, refs, docsAfter, refsAfter);
    forall i, j | i in docsAfter && j in docsAfter && docsAfter[i].url.Some?
      && docsAfter[i].url == docsAfter[j].url && docsAfter[i].question == docsAfter[j].question
      ensures i == j
    {
      assert InGroup(docsAfter[i], KeyOf(docsAfter[i])) && InGroup(docsAfter[j], KeyOf(docsAfter[i]));
    }
    hide Migrated, OnePerGroup, IndexHolds;
    forall id | id in docs
      ensures exists keep ::
        && SameSource(docs, docsAfter, id, keep)
        && (docs[id].content.Some? && docs[id].content.value != "" ==>
              docsAfter[keep].content.Some? && docsAfter[keep].content.value != "")
    {
      if docs[id].url.Some? {
        assert Represented(docs, docsAfter, id);
        var keep :| keep in docsAfter && InGroup(docsAfter[keep], KeyOf(docs[id]))
          && (HasContent(docs[id]) ==> HasContent(docsAfter[keep]));
        assert SameSource(docs, docsAfter, id, keep);
      } else {
        assert SameSource(docs, docsAfter, id, id);
      }
    }
    forall c | c in refs
      ensures refs[c].Some? && refs[c].value in docs ==>
        c in refsAfter && refsAfter[c].Some? && SameSource(docs, docsAfter, refs[c].value, refsAfter[c].value)
      ensures (refs[c].Some? ==> refs[c].value in docsAfter || refs[c].value !in docs) ==>
        c in refsAfter && refsAfter[c] == refs[c]
    {
      ReferencesFollow(docs, refs, docsAfter, refsAfter, c);
    }
  }

  /** Row `keep` remains and is of the question and url that row `id` was. */
  ghost predicate SameSource(docs: DocumentTable, docsAfter: DocumentTable, id: nat, keep: nat) {
    && id in docs && keep in docsAfter
    && docsAfter[keep].question == docs[id].question && docsAfter[keep].url == docs[id].url
  }

  lemma GroupIsRepresented(docs: DocumentTable, keepers: Keepers, id: nat)
    requires AreKeepers(docs, keepers) && id in docs && docs[id].url.Some?
    ensures Represented(docs, Remaining(docs, keepers), id)
  {
    var key := KeyOf(docs[id]);
    assert key in GroupKeys(docs);
    assert IsKeeper(docs, key, keepers[key]);
    assert InGroup(docs[id], key);
    assert keepers[key] in Remaining(docs, keepers);
  }

  lemma GroupHasOneRow(docs: DocumentTable, keepers: Keepers, key: Key, i: nat)
    requires AreKeepers(docs, keepers) && i in Remaining(docs, keepers) && InGroup(docs[i], key)
    ensures key in keepers && i == keepers[key]
  {
    assert KeyOf(docs[i]) == key && key in GroupKeys(docs);
  }

  lemma OnePerGroupIsUnique(docs: DocumentTable)
    requires OnePerGroup(docs)
    ensures IndexHolds(docs)
  {
    forall i, j | i in docs && j in docs && Collide(docs[i], docs[j]) ensures i == j {
      assert InGroup(docs[i], KeyOf(docs[i])) && InGroup(docs[j], KeyOf(docs[i]));
    }
  }

  /** Some remaining row is of the same group, and has content if this one had. */
  ghost predicate Represented(docs: DocumentTable, docsAfter: DocumentTable, id: nat)
    requires id in docs && docs[id].url.Some?
  {
    exists keep :: keep in docsAfter && InGroup(docsAfter[keep], KeyOf(docs[id]))
      && (HasContent(docs[id]) ==> HasContent(docsAfter[keep]))
  }

  /** A reference to a removed row now names the kept row of its group; every other reference is as it was. */
  lemma ReferencesFollow(docs: DocumentTable, refs: References, docsAfter: DocumentTable, refsAfter: References, c: nat)
    requires Migrated(docs, refs, docsAfter, refsAfter) && c in refs
    ensures c in refsAfter
    ensures (refs[c].Some? && refs[c].value in docs && refs[c].value !in docsAfter ==>
      && docs[refs[c].value].url.Some? && refsAfter[c].Some? && refsAfter[c].value in docsAfter
      && InGroup(docsAfter[refsAfter[c].value], KeyOf(docs[refs[c].value])))
    ensures !(refs[c].Some? && refs[c].value in docs && refs[c].value !in docsAfter) ==> refsAfter[c] == refs[c]
  {
    var keepers :| AreKeepers(docs, keepers) && docsAfter == Remaining(docs, keepers)
      && refsAfter == Redirected(docs, keepers, refs);
    if refs[c].Some? && refs[c].value in docs && refs[c].value !in docsAfter {
      var key := KeyOf(docs[refs[c].value]);
      assert IsKeeper(docs, key, keepers[key]);
      assert KeyOf(docs[keepers[key]]) == key;
    }
  }

  /** On a table that already has one row per group the migration changes nothing, so running it again does nothing. */
  lemma MigratingAgainChangesNothing(docs: DocumentTable, refs: References, docsAfter: DocumentTable,
                                     refsAfter: References)
    requires OnePerGroup(docs) && Migrated(docs, refs, docsAfter, refsAfter)
    ensures docsAfter == docs && refsAfter == refs
  {
    var keepers :| AreKeepers(docs, keepers) && docsAfter == Remaining(docs, keepers)
      && refsAfter == Redirected(docs, keepers, refs);
    forall id ensures !Removed(docs, keepers, id) {
      hide Remaining, Redirected;
      if id in docs {
        SingleRowStays(docs, keepers, id);
      }
    }
    hide AreKeepers, OnePerGroup, Removed;
  }

  lemma SingleRowStays(docs: DocumentTable, keepers: Keepers, id: nat)
    requires OnePerGroup(docs) && AreKeepers(docs, keepers) && id in docs
    ensures !Removed(docs, keepers, id)
  {
    if docs[id].url.Some? && KeyOf(docs[id]) in keepers {
      var key := KeyOf(docs[id]);
      assert IsKeeper(docs, key, keepers[key]);
      assert InGroup(docs[id], key);
    }
  }

  // ----- Evidence ids stored with predictions -----

  /** The evidence_ids of each prediction. */
  type Citations = map<nat, seq<nat>>

  /** Every evidence id names a stored document. */
  ghost predicate CitationsExist(docs: DocumentTable, cited: Citations) {
    forall p :: p in cited ==> AllStored(docs, cited[p])
  }

  predicate AllStored(docs: DocumentTable, evidence: seq<nat>) {
    forall i :: 0 <= i < |evidence| ==> evidence[i] in docs
  }

  /** No other row shares the question and url. */
  ghost predicate Alone(docs: DocumentTable, id: nat)
    requires id in docs && docs[id].url.Some?
  {
    forall j :: j in docs && InGroup(docs[j], KeyOf(docs[id])) ==> j == id
  }

  ghost predicate OnlyContent(docs: DocumentTable, id: nat)
    requires id in docs && docs[id].url.Some?
  {
    && HasContent(docs[id])
    && forall j :: j in docs && InGroup(docs[j], KeyOf(docs[id])) && HasContent(docs[j]) ==> j == id
  }

  /** A row every migration keeps: without a url, alone in its group, or its group's only row with content. */
  ghost predicate Safe(docs: DocumentTable, id: nat) {
    id in docs && (docs[id].url.None? || Alone(docs, id) || OnlyContent(docs, id))
  }

  ghost predicate AlwaysRemains(docs: DocumentTable, id: nat) {
    forall keepers :: AreKeepers(docs, keepers) ==> id in Remaining(docs, keepers)
  }

  lemma KeeperExists(docs: DocumentTable, key: Key) returns (keep: nat)
    requires key in GroupKeys(docs)
    ensures IsKeeper(docs, key, keep)
  {
    var any :| any in docs && docs[any].url.Some? && KeyOf(docs[any]) == key;
    if full :| full in docs && InGroup(docs[full], key) && HasContent(docs[full]) {
      keep := full;
    } else {
      keep := any;
    }
  }

  /** Any keeper of one group can be part of a choice of keepers for all. */
  lemma KeepersWith(docs: DocumentTable, key: Key, keep: nat) returns (keepers: Keepers)
    requires key in GroupKeys(docs) && IsKeeper(docs, key, keep)
    ensures AreKeepers(docs, keepers) && keepers[key] == keep
  {
    keepers := map[];
    var rest := GroupKeys(docs);
    while rest != {}
      invariant rest <= GroupKeys(docs)
      invariant forall k :: k in keepers <==> k in GroupKeys(docs) && k !in rest
      invariant forall k :: k in keepers ==> IsKeeper(docs, k, keepers[k])
      decreases |rest|
    {
      var k :| k in rest;
      var chosen := KeeperExists(docs, k);
      keepers, rest := keepers[k := chosen], rest - {k};
    }
    keepers := keepers[key := keep];
  }

  lemma SafeRemains(docs: DocumentTable, keepers: Keepers, id: nat)
    requires AreKeepers(docs, keepers) && Safe(docs, id)
    ensures id in Remaining(docs, keepers)
  {
    if docs[id].url.Some? && KeyOf(docs[id]) in keepers {
      var key := KeyOf(docs[id]);
      assert IsKeeper(docs, key, keepers[key]);
      assert InGroup(docs[id], key);
    }
  }

  /** Some row of the group can be kept in place of an unsafe one. */
  lemma RivalExists(docs: DocumentTable, id: nat) returns (rival: nat)
    requires id in docs && !Safe(docs, id)
    ensures docs[id].url.Some? && rival != id && IsKeeper(docs, KeyOf(docs[id]), rival)
  {
    var key := KeyOf(docs[id]);
    if full :| full in docs && InGroup(docs[full], key) && HasContent(docs[full]) && full != id {
      rival := full;
    } else {
      rival :| rival in docs && InGroup(docs[rival], key) && rival != id;
    }
  }

  /** An id survives every migration exactly when its row is safe, which the table shows beforehand. */
  lemma RemainsExactlyWhenSafe(docs: DocumentTable, id: nat)
    ensures AlwaysRemains(docs, id) <==> Safe(docs, id)
  {
    if Safe(docs, id) {
      forall keepers | AreKeepers(docs, keepers) ensures id in Remaining(docs, keepers) {
        SafeRemains(docs, keepers, id);
      }
    } else if id in docs {
      var rival := RivalExists(docs, id);
      var key := KeyOf(docs[id]);
      assert key in GroupKeys(docs);
      var keepers := KeepersWith(docs, key, rival);
      assert Removed(docs, keepers, id);
    } else {
      var keepers := SomeKeepers(docs);
      assert id !in Remaining(docs, keepers);
    }
  }

  lemma SomeKeepers(docs: DocumentTable) returns (keepers: Keepers)
    ensures AreKeepers(docs, keepers)
  {
    if key :| key in GroupKeys(docs) {
      var keep := KeeperExists(docs, key);
      keepers := KeepersWith(docs, key, keep);
    } else {
      keepers := map[];
    }
  }

  ghost predicate AllSafe(docs: DocumentTable, cited: Citations) {
    forall p, i :: p in cited && 0 <= i < |cited[p]| ==> Safe(docs, cited[p][i])
  }

  /** All evidence ids go on naming stored documents, whichever rows are kept, exactly when all are safe. */
  lemma CitationsSurviveExactlyWhenSafe(docs: DocumentTable, cited: Citations)
    ensures (forall keepers :: AreKeepers(docs, keepers) ==> CitationsExist(Remaining(docs, keepers), cited))
      <==> AllSafe(docs, cited)
  {
    hide Safe, AreKeepers, Remaining;
    if AllSafe(docs, cited) {
      forall keepers | AreKeepers(docs, keepers) ensures CitationsExist(Remaining(docs, keepers), cited) {
        forall p, i | p in cited && 0 <= i < |cited[p]| ensures cited[p][i] in Remaining(docs, keepers) {
          SafeRemains(docs, keepers, cited[p][i]);
        }
      }
    } else {
      var p, i :| p in cited && 0 <= i < |cited[p]| && !Safe(docs, cited[p][i]);
      RemainsExactlyWhenSafe(docs, cited[p][i]);
    }
  }

  function TwoRows(): DocumentTable {
    var d := Document(Some(1), Some("u"), "s", "t", Some("text"));
    map[1 := d, 2 := d]
  }

  /** Two rows of one question and url, the second cited: the migration may keep the first and leave the id dangling. */
  lemma MigrationCanLoseEvidence(refs: References)
    ensures CitationsExist(TwoRows(), map[7 := [2]])
    ensures exists docsAfter, refsAfter ::
      Migrated(TwoRows(), refs, docsAfter, refsAfter) && !CitationsExist(docsAfter, map[7 := [2]])
  {
    var docs, cited: Citations, key := TwoRows(), map[7 := [2]], Key(Some(1), "u");
    var keepers: Keepers := map[key := 1];
    assert 1 in docs && KeyOf(docs[1]) == key;
    assert AreKeepers(docs, keepers);
    assert Removed(docs, keepers, 2);
    assert cited[7][0] !in Remaining(docs, keepers);
    assert !CitationsExist(Remaining(docs, keepers), cited);
    assert Migrated(docs, refs, Remaining(docs, keepers), Redirected(docs, keepers, refs));
  }

  lemma MigrationKeepsSafeCitations(docs: DocumentTable, refs: References, docsAfter: DocumentTable,
                                    refsAfter: References, cited: Citations)
    requires Migrated(docs, refs, docsAfter, refsAfter) && AllSafe(docs, cited)
    ensures CitationsExist(docsAfter, cited)
  {
    hide AreKeepers, Remaining, AllSafe, CitationsExist, Redirected;
    CitationsSurviveExactlyWhenSafe(docs, cited);
  }

  // ----- The store -----

  class Store {
    var documents: DocumentTable
    var references: References
    var citations: Citations
    var indexed: bool
    var nextId: nat

    ghost predicate Valid()
      reads this
    {
      (indexed ==> IndexHolds(documents)) && forall id :: id in documents ==> id < nextId
    }

    constructor ()
      ensures Valid() && documents == map[] && references == map[] && citations == map[] && !indexed
    {
      documents, references, citations, indexed, nextId := map[], map[], map[], false, 1;
    }

    /** The grouping query: one keeper per group, any row with the least "no content" flag. */
    method ChooseKeepers() returns (keepers: Keepers)
      ensures AreKeepers(documents, keepers)
    {
      keepers := map[];
      var rest := documents.Keys;
      while rest != {}
        invariant rest <= documents.Keys
        invariant forall key :: key in keepers ==> keepers[key] in documents && InGroup(documents[keepers[key]], key)
        invariant forall id :: id in documents && id !in rest && documents[id].url.Some? ==>
          Beaten(documents, keepers, id)
        decreases |rest|
      {
        var id: nat :| id in rest;
        rest := rest - {id};
        var d := documents[id];
        if d.url.Some? {
          var key := KeyOf(d);
          var preferAmongEqual: bool := *;
          if key !in keepers || (HasContent(d) && !HasContent(documents[keepers[key]]))
            || (preferAmongEqual && HasContent(d) == HasContent(documents[keepers[key]]))
          {
            keepers := keepers[key := id];
          }
        }
      }
      forall key | key in keepers ensures key in GroupKeys(documents) && IsKeeper(documents, key, keepers[key]) {
        assert KeyOf(documents[keepers[key]]) == key;
        forall id | id in documents && InGroup(documents[id], key) && HasContent(documents[id])
          ensures HasContent(documents[keepers[key]])
        {
          assert Beaten(documents, keepers, id);
        }
      }
      forall key | key in GroupKeys(documents) ensures key in keepers {
        var id :| id in documents && documents[id].url.Some? && KeyOf(documents[id]) == key;
        assert Beaten(documents, keepers, id);
      }
    }

    /** _migrate_source_documents_unique */
    method MigrateUnique()
      requires Valid()
      modifies this`documents, this`references, this`indexed
      ensures Valid() && indexed
      ensures old(indexed) ==> documents == old(documents) && references == old(references)
      ensures !old(indexed) ==> Migrated(old(documents), old(references), documents, references)
      ensures old(CitationsExist(documents, citations)) && (old(indexed) || AllSafe(old(documents), citations)) ==>
                CitationsExist(documents, citations)
    {
      hide CitationsExist, AllSafe;
      if indexed {
        return;
      }
      ghost var docs, refs := documents, references;
      var keepers := ChooseKeepers();
      var groups := keepers.Keys;
      NoGroupYet(docs, refs, keepers);
      while groups != {}
        invariant groups <= keepers.Keys
        invariant documents == Remaining(docs, Without(keepers, groups))
        invariant references == Redirected(docs, Without(keepers, groups), refs)
        decreases |groups|
      {
        var key :| key in groups;
        GroupStep(docs, refs, keepers, groups, key);
        references := RedirectOthers(documents, references, key, keepers[key]);
        documents := DeleteOthers(documents, key, keepers[key]);
        groups := groups - {key};
      }
      assert Without(keepers, groups) == keepers;
      MigrationKeepsOnePerGroup(docs, refs, documents, references);
      if AllSafe(docs, citations) {
        MigrationKeepsSafeCitations(docs, refs, documents, references, citations);
      }
      indexed := true;
    }

    /**
     * add_document.  INSERT OR IGNORE drops a row the index forbids; the existing row is then returned.
     * Err is the RuntimeError for a dropped row that cannot be found, which never happens.
     */
    method AddDocument(question: nat, source: string, url: Option<string>, title: string, content: Option<string>)
      returns (r: Result<nat>)
      requires Valid()
      modifies this`documents, this`nextId
      ensures Valid() && r.Ok? && r.value in documents
      ensures old(CitationsExist(documents, citations)) ==> CitationsExist(documents, citations)
      ensures documents[r.value].question == Some(question) && documents[r.value].url == url
      ensures (indexed ==> forall i, j ::
        i in documents && j in documents && documents[i].question.Some? && documents[i].url.Some?
        && documents[i].question == documents[j].question && documents[i].url == documents[j].url ==>
          i == j)
      ensures (r.value in old(documents) <==>
        && indexed && url.Some?
        && exists id :: id in old(documents) && old(documents)[id].question == Some(question)
             && old(documents)[id].url == url)
      ensures r.value in old(documents) ==> documents == old(documents)
      ensures (r.value !in old(documents) ==>
        documents == old(documents)[r.value := Document(Some(question), url, source, title, content)])
    {
      var conflict := indexed && url.Some? && Taken(documents, Key(Some(question), url.value));
      if !conflict {
        documents := documents[nextId := Document(Some(question), url, source, title, content)];
        r := Ok(nextId);
        nextId := nextId + 1;
        return;
      }
      var found := FirstMatch(question, url);
      if found.None? {
        return Err("INSERT OR IGNORE conflict without an existing row");
      }
      r := Ok(found.value);
    }

    /** The evidence ids of add_prediction: at least one, and not checked against the documents. */
    method Cite(prediction: nat, evidence: seq<nat>) returns (ok: bool)
      requires Valid() && prediction !in citations
      modifies this`citations
      ensures Valid() && (ok <==> evidence != [])
      ensures citations == if ok then old(citations)[prediction := evidence] else old(citations)
      ensures old(CitationsExist(documents, citations)) && AllStored(documents, evidence) ==>
        CitationsExist(documents, citations)
    {
      ok := evidence != [];
      if ok {
        citations := citations[prediction := evidence];
      }
    }

    /** SELECT id ... WHERE question_id = ? AND url IS NOT DISTINCT FROM ? ORDER BY id LIMIT 1 */
    method FirstMatch(question: nat, url: Option<string>) returns (found: Option<nat>)
      ensures found.None? <==> forall id :: id in documents ==> !Matches(documents[id], question, url)
      ensures (found.Some? ==>
        && found.value in documents && Matches(documents[found.value], question, url)
        && forall id :: id in documents && Matches(documents[id], question, url) ==> found.value <= id)
    {
      found := None;
      var rest := documents.Keys;
      while rest != {}
        invariant rest <= documents.Keys
        invariant found.Some? ==> found.value in documents && Matches(documents[found.value], question, url)
        invariant forall id :: id in documents && id !in rest && Matches(documents[id], question, url) ==>
          found.Some? && found.value <= id
        decreases |rest|
      {
        var id: nat :| id in rest;
        rest := rest - {id};
        if Matches(documents[id], question, url) && (found.None? || id < found.value) {
          found := Some(id);
        }
      }
    }
  }

  /** Some row has this question and url. */
  predicate Taken(docs: DocumentTable, key: Key) {
    exists id :: id in docs && InGroup(docs[id], key)
  }

  predicate Matches(d: Document, question: nat, url: Option<string>) {
    d.question == Some(question) && d.url == url
  }

  /** The keeper of a row's group has content if the row has. */
  predicate Beaten(docs: DocumentTable, keepers: Keepers, id: nat)
    requires id in docs && docs[id].url.Some?
  {
    var key := KeyOf(docs[id]);
    key in keepers && keepers[key] in docs && (HasContent(docs[id]) ==> HasContent(docs[keepers[key]]))
  }

  /** The UPDATE of curated_documents for one group. */
  function RedirectOthers(docs: DocumentTable, refs: References, key: Key, keep: nat): References {
    map c | c in refs ::
      if refs[c].Some? && refs[c].value in docs && InGroup(docs[refs[c].value], key) && refs[c].value != keep
        then Some(keep) else refs[c]
  }

  /** The DELETE for one group. */
  function DeleteOthers(docs: DocumentTable, key: Key, keep: nat): DocumentTable {
    map id | id in docs && !(InGroup(docs[id], key) && id != keep) :: docs[id]
  }

  function Without(keepers: Keepers, groups: set<Key>): Keepers {
    map key | key in keepers && key !in groups :: keepers[key]
  }

  lemma NoGroupYet(docs: DocumentTable, refs: References, keepers: Keepers)
    ensures Remaining(docs, Without(keepers, keepers.Keys)) == docs
    ensures Redirected(docs, Without(keepers, keepers.Keys), refs) == refs
  {
  }

  /** Redirecting and deleting in one more group brings the tables one keeper further. */
  lemma GroupStep(docs: DocumentTable, refs: References, keepers: Keepers, groups: set<Key>, key: Key)
    requires AreKeepers(docs, keepers) && groups <= keepers.Keys && key in groups
    ensures var done, next := Without(keepers, groups), Without(keepers, groups - {key});
      && DeleteOthers(Remaining(docs, done), key, keepers[key]) == Remaining(docs, next)
      && RedirectOthers(Remaining(docs, done), Redirected(docs, done, refs), key, keepers[key])
           == Redirected(docs, next, refs)
  {
    var done, next := Without(keepers, groups), Without(keepers, groups - {key});
    assert next == done[key := keepers[key]];
    assert key in keepers && key !in done;
    assert IsKeeper(docs, key, keepers[key]);
    forall id | id in docs
      ensures Removed(docs, next, id) <==> Removed(docs, done, id) || (InGroup(docs[id], key) && id != keepers[key])
    {
      assert InGroup(docs[id], key) <==> docs[id].url.Some? && KeyOf(docs[id]) == key;
    }
    assert DeleteOthers(Remaining(docs, done), key, keepers[key]) == Remaining(docs, next);
    forall c | c in refs
      ensures RedirectOthers(Remaining(docs, done), Redirected(docs, done, refs), key, keepers[key])[c]
        == Redirect(docs, next, refs[c])
    {
      RedirectStep(docs, keepers, done, next, key, refs[c]);
    }
  }

  lemma RedirectStep(docs: DocumentTable, keepers: Keepers, done: Keepers, next: Keepers, key: Key, ref: Option<nat>)
    requires AreKeepers(docs, keepers) && key in keepers && key !in done && next == done[key := keepers[key]]
    requires forall k :: k in done ==> k in keepers && done[k] == keepers[k]
    ensures var was, now := Redirect(docs, done, ref), Remaining(docs, done);
      Redirect(docs, next, ref) ==
        if was.Some? && was.value in now && InGroup(now[was.value], key) && was.value != keepers[key]
          then Some(keepers[key]) else was
  {
    if ref.Some? && Removed(docs, done, ref.value) {
      var k := KeyOf(docs[ref.value]);
      assert IsKeeper(docs, k, keepers[k]);
      assert KeyOf(docs[keepers[k]]) == k;
    }
  }
}
