/** The REST handlers for posts, social links and the bio (backend/server.js)
    over an in-memory store: one map from id to document per collection and
    the singleton bio document. `ObjectId.isValid` is the parameter `isValid`;
    the id the store generates on insert is the parameter `newId`. */
module ContentApi {
  import opened Wrappers
  import opened Strings

  datatype Collection = Posts | SocialLinks

  /** An HTTP status and the JSON body sent with it. */
  datatype Reply = Reply(status: int, body: Json)

  function ErrorReply(status: int, message: string): Reply {
    Reply(status, JObject(map["error" := JString(message)]))
  }

  function InvalidIdMessage(c: Collection): string {
    if c == Posts then "Invalid post ID" else "Invalid social link ID"
  }

  function NotFoundMessage(c: Collection): string {
    if c == Posts then "Post not found" else "Social link not found"
  }

  const MissingLinkFields := "Missing required fields: platform, username, and url are required"

  /** `{ id: _id.toString(), ...doc }`: the public form of a stored document.
      A stored `id` key would win over the store's id, as in a spread. */
  function Exposed(id: string, doc: Doc): Doc {
    map["id" := JString(id)] + doc
  }

  /** `{ id, ...doc }` after `insertOne` has added the generated `_id` to
      `doc`: the reply to a create carries the new id twice. */
  function CreatedEcho(id: string, doc: Doc): Doc {
    Exposed(id, doc["_id" := JString(id)])
  }

  /** `const { id, ...rest } = body`: every request body loses its `id` key
      before it is written. */
  function WithoutId(body: Doc): (r: Doc)
    ensures "id" !in r
    ensures forall k :: k in body && k != "id" ==> k in r && r[k] == body[k]
    ensures r.Keys <= body.Keys
  {
    body - {"id"}
  }

  /** No stored document carries an `id` key; every write keeps it so. */
  ghost predicate NoIdField(docs: map<string, Doc>) {
    forall k :: k in docs ==> "id" !in docs[k]
  }

  /** The social-link create check `!platform || !username || !url`. */
  predicate HasLinkFields(body: Doc) {
    Truthy(Get(body, "platform")) && Truthy(Get(body, "username")) && Truthy(Get(body, "url"))
  }

  // ---------------------------------------------------------------------------
  // The list order

  datatype Entry = Entry(id: string, doc: Doc)

  /** The `date` a post is sorted by. */
  function DateKey(e: Entry): string {
    StringOr(Get(e.doc, "date"), "")
  }

  /** `sort({ date: -1 })`: no entry is older than one after it. */
  ghost predicate NewestFirst(s: seq<Entry>) {
    forall i, j :: 0 <= i < j < |s| ==> LexLe(DateKey(s[j]), DateKey(s[i]))
  }

  /** Putting `h` in front keeps the order when nothing after it is newer. */
  lemma ConsNewest(h: Entry, s: seq<Entry>)
    requires NewestFirst(s)
    requires forall x :: x in s ==> LexLe(DateKey(x), DateKey(h))
    ensures NewestFirst([h] + s)
  {
    forall i, j | 0 <= i < j < |[h] + s|
      ensures LexLe(DateKey(([h] + s)[j]), DateKey(([h] + s)[i]))
    {
      if i == 0 { assert ([h] + s)[j] in s; }
    }
  }

  function InsertByDate(e: Entry, s: seq<Entry>): (r: seq<Entry>)
    requires NewestFirst(s)
    ensures NewestFirst(r)
    ensures multiset(r) == multiset(s) + multiset{e}
  {
    if s == [] then [e]
    else if LexLe(DateKey(s[0]), DateKey(e)) then
      forall x | x in s ensures LexLe(DateKey(x), DateKey(e)) {
        var k :| 0 <= k < |s| && s[k] == x;
        if k > 0 { LexLeTransitive(DateKey(x), DateKey(s[0]), DateKey(e)); }
      }
      ConsNewest(e, s);
      [e] + s
    else
      var rest := InsertByDate(e, s[1..]);
      LexLeTotal(DateKey(s[0]), DateKey(e));
      forall x | x in rest ensures LexLe(DateKey(x), DateKey(s[0])) {
        assert x in multiset(rest);
        if x != e {
          assert x in multiset(s[1..]);
          var k :| 0 <= k < |s[1..]| && s[1..][k] == x;
          assert s[k + 1] == x;
        }
      }
      ConsNewest(s[0], rest);
      assert s == [s[0]] + s[1..];
      [s[0]] + rest
  }

  /** The posts list order: newest first, nothing added or lost. */
  function SortByDate(s: seq<Entry>): (r: seq<Entry>)
    ensures NewestFirst(r)
    ensures multiset(r) == multiset(s)
  {
    if s == [] then []
    else
      assert s == [s[0]] + s[1..];
      InsertByDate(s[0], SortByDate(s[1..]))
  }

  /** `es` lists the collection `docs`: one entry per stored document. */
  ghost predicate ListsExactly(es: seq<Entry>, docs: map<string, Doc>) {
    && |es| == |docs|
    && (forall e :: e in es ==> e.id in docs && docs[e.id] == e.doc)
    && (forall k :: k in docs ==> Entry(k, docs[k]) in es)
  }

  function Render(es: seq<Entry>): (r: seq<Json>)
    ensures |r| == |es|
    ensures forall i :: 0 <= i < |es| ==> r[i] == JObject(Exposed(es[i].id, es[i].doc))
  {
    seq(|es|, i requires 0 <= i < |es| => JObject(Exposed(es[i].id, es[i].doc)))
  }

  datatype BioDoc = BioDoc(translations: Json, updatedAt: string)

  class Store {
    var posts: map<string, Doc>
    var socialLinks: map<string, Doc>
    var bio: Option<BioDoc>

    constructor ()
      ensures posts == map[] && socialLinks == map[] && bio == None
    {
      posts, socialLinks, bio := map[], map[], None;
    }

    function Docs(c: Collection): map<string, Doc>
      reads this
    {
      if c == Posts then posts else socialLinks
    }

    /** `GET /api/posts`, `GET /api/social-links`: every stored document in
        its public form; posts newest first, links in store order. */
    method List(c: Collection) returns (entries: seq<Entry>, r: Reply)
      ensures ListsExactly(entries, Docs(c))
      ensures c == Posts ==> NewestFirst(entries)
      ensures r == Reply(200, JArray(Render(entries)))
    {
      var docs := Docs(c);
      var keys := docs.Keys;
      entries := [];
      while keys != {}
        invariant keys <= docs.Keys
        invariant forall e :: e in entries ==> e.id in docs && docs[e.id] == e.doc && e.id !in keys
        invariant forall k :: k in docs && k !in keys ==> Entry(k, docs[k]) in entries
        invariant |entries| + |keys| == |docs.Keys|
        decreases |keys|
      {
        var k :| k in keys;
        entries := entries + [Entry(k, docs[k])];
        keys := keys - {k};
      }
      if c == Posts {
        var sorted := SortByDate(entries);
        assert forall e :: e in sorted <==> e in entries by {
          forall e ensures e in sorted <==> e in entries {
            assert e in sorted <==> e in multiset(sorted);
            assert e in entries <==> e in multiset(entries);
          }
        }
        assert |sorted| == |multiset(sorted)| == |entries|;
        entries := sorted;
      }
      r := Reply(200, JArray(Render(entries)));
    }

    /** `GET /:id`: 400 for a malformed id, 404 for a missing document,
        otherwise the document with its id. */
    method Find(c: Collection, id: string, isValid: string -> bool) returns (r: Reply)
      ensures !isValid(id) ==> r == ErrorReply(400, InvalidIdMessage(c))
      ensures isValid(id) && id !in Docs(c) ==> r == ErrorReply(404, NotFoundMessage(c))
      ensures isValid(id) && id in Docs(c) ==> r == Reply(200, JObject(Exposed(id, Docs(c)[id])))
      ensures r.status == 200 && NoIdField(Docs(c)) ==> r.body.fields["id"] == JString(id)
    {
      if !isValid(id) {
        return ErrorReply(400, InvalidIdMessage(c));
      }
      var docs := Docs(c);
      if id !in docs {
        return ErrorReply(404, NotFoundMessage(c));
      }
      r := Reply(200, JObject(Exposed(id, docs[id])));
    }

    /** `POST`: stores the body without its `id` under a fresh id and answers
        201 with the stored fields, that id as `id` and, added by the insert,
        as `_id`. A social link lacking a truthy
        `platform`, `username` or `url` is refused with 400 and nothing is
        stored. */
    method Create(c: Collection, body: Doc, newId: string) returns (r: Reply)
      requires newId !in Docs(c)
      modifies this
      ensures c == SocialLinks && !HasLinkFields(body) ==>
                r == ErrorReply(400, MissingLinkFields) && Docs(c) == old(Docs(c))
      ensures c == Posts || HasLinkFields(body) ==>
                && Docs(c) == old(Docs(c))[newId := WithoutId(body)]
                && r == Reply(201, JObject(CreatedEcho(newId, WithoutId(body))))
      ensures old(NoIdField(Docs(c))) ==> NoIdField(Docs(c))
      ensures c == Posts ==> socialLinks == old(socialLinks)
      ensures c == SocialLinks ==> posts == old(posts)
      ensures bio == old(bio)
    {
      if c == SocialLinks && !HasLinkFields(body) {
        return ErrorReply(400, MissingLinkFields);
      }
      var clean := WithoutId(body);
      if c == Posts {
        posts := posts[newId := clean];
      } else {
        socialLinks := socialLinks[newId := clean];
      }
      r := Reply(201, JObject(CreatedEcho(newId, clean)));
    }

    /** `PUT /:id` with `$set`: the supplied fields, minus `id`, replace the
        stored ones and every other stored field stays. */
    method Update(c: Collection, id: string, body: Doc, isValid: string -> bool) returns (r: Reply)
      modifies this
      ensures !isValid(id) ==> r == ErrorReply(400, InvalidIdMessage(c)) && Docs(c) == old(Docs(c))
      ensures isValid(id) && id !in old(Docs(c)) ==>
                r == ErrorReply(404, NotFoundMessage(c)) && Docs(c) == old(Docs(c))
      ensures isValid(id) && id in old(Docs(c)) ==>
                && Docs(c) == old(Docs(c))[id := old(Docs(c))[id] + WithoutId(body)]
                && r == Reply(200, JObject(Exposed(id, Docs(c)[id])))
      ensures old(NoIdField(Docs(c))) ==> NoIdField(Docs(c))
      ensures c == Posts ==> socialLinks == old(socialLinks)
      ensures c == SocialLinks ==> posts == old(posts)
      ensures bio == old(bio)
    {
      if !isValid(id) {
        return ErrorReply(400, InvalidIdMessage(c));
      }
      var docs := Docs(c);
      if id !in docs {
        return ErrorReply(404, NotFoundMessage(c));
      }
      var updated := docs[id] + WithoutId(body);
      if c == Posts {
        posts := posts[id := updated];
      } else {
        socialLinks := socialLinks[id := updated];
      }
      r := Reply(200, JObject(Exposed(id, updated)));
    }

    /** `DELETE /:id`: removes exactly that document. */
    method Delete(c: Collection, id: string, isValid: string -> bool) returns (r: Reply)
      modifies this
      ensures !isValid(id) ==> r == ErrorReply(400, InvalidIdMessage(c)) && Docs(c) == old(Docs(c))
      ensures isValid(id) && id !in old(Docs(c)) ==>
                r == ErrorReply(404, NotFoundMessage(c)) && Docs(c) == old(Docs(c))
      ensures isValid(id) && id in old(Docs(c)) ==>
                Docs(c) == old(Docs(c)) - {id} && r == Reply(200, JObject(map["success" := JBool(true)]))
      ensures c == Posts ==> socialLinks == old(socialLinks)
      ensures c == SocialLinks ==> posts == old(posts)
      ensures bio == old(bio)
    {
      if !isValid(id) {
        return ErrorReply(400, InvalidIdMessage(c));
      }
      if id !in Docs(c) {
        return ErrorReply(404, NotFoundMessage(c));
      }
      if c == Posts {
        posts := posts - {id};
      } else {
        socialLinks := socialLinks - {id};
      }
      r := Reply(200, JObject(map["success" := JBool(true)]));
    }

    /** `GET /api/bio`: the stored translations, or `{}` when there is no
        bio document. */
    method GetBio() returns (r: Reply)
      ensures bio.None? ==> r == Reply(200, JObject(map["translations" := JObject(map[])]))
      ensures bio.Some? && Truthy(Some(bio.value.translations)) ==>
                r == Reply(200, JObject(map["translations" := bio.value.translations]))
    {
      var translations := if bio.Some? && Truthy(Some(bio.value.translations))
                          then bio.value.translations else JObject(map[]);
      r := Reply(200, JObject(map["translations" := translations]));
    }

    /** `PUT /api/bio`: `translations` must be an object (an array passes
        `typeof`, `null` does not); it is upserted into the single document
        with the time of the write, and echoed. */
    method PutBio(body: Doc, now: string) returns (r: Reply)
      modifies this
      ensures var t := Get(body, "translations");
              if t.Some? && (t.value.JObject? || t.value.JArray?) then
                bio == Some(BioDoc(t.value, now)) && r == Reply(200, JObject(map["translations" := t.value]))
              else
                bio == old(bio) && r == ErrorReply(400, "Body must include translations object")
      ensures posts == old(posts) && socialLinks == old(socialLinks)
    {
      var t := Get(body, "translations");
      if !(t.Some? && (t.value.JObject? || t.value.JArray?)) {
        return ErrorReply(400, "Body must include translations object");
      }
      bio := Some(BioDoc(t.value, now));
      r := Reply(200, JObject(map["translations" := t.value]));
    }
  }

  /** A created post reads back, by the id the create answered with, as the
      body without its `id` plus that id: the create's reply minus the `_id`
      the insert added. */
  method CreateThenFind(s: Store, body: Doc, newId: string, isValid: string -> bool)
    returns (created: Reply, found: Reply)
    requires isValid(newId) && newId !in s.posts
    modifies s
    ensures created.status == 201 && found.status == 200
    ensures created.body == JObject(CreatedEcho(newId, WithoutId(body)))
    ensures found.body == JObject(Exposed(newId, WithoutId(body)))
    ensures "_id" !in body ==> found.body.fields == created.body.fields - {"_id"}
    ensures found.body.fields["id"] == JString(newId)
  {
    created := s.Create(Posts, body, newId);
    found := s.Find(Posts, newId, isValid);
    if "_id" !in body {
      assert found.body.fields == created.body.fields - {"_id"};
    }
  }

  /** Deleting twice: the second request finds nothing. */
  method DeleteTwice(s: Store, c: Collection, id: string, isValid: string -> bool)
    returns (first: Reply, second: Reply)
    requires isValid(id) && id in s.Docs(c)
    modifies s
    ensures first.status == 200 && second == ErrorReply(404, NotFoundMessage(c))
    ensures id !in s.Docs(c)
  {
    first := s.Delete(c, id, isValid);
    second := s.Delete(c, id, isValid);
  }

  /** What `PUT /api/bio` stored, `GET /api/bio` returns. */
  method PutBioThenGet(s: Store, translations: map<string, Json>, now: string) returns (put: Reply, got: Reply)
    modifies s
    ensures put == got == Reply(200, JObject(map["translations" := JObject(translations)]))
  {
    put := s.PutBio(map["translations" := JObject(translations)], now);
    got := s.GetBio();
  }
}
