/**
 * The server side: the knowledge-base file as an insertion-ordered map keyed
 * by lower-cased disease name, with its add, edit, delete and listing
 * endpoints; the admin statistics and review endpoints over the feedback
 * table; the admin token check; the chat-ownership checks; and
 * `format_response`.
 */
module Api {
  import opened Js
  import opened Strings

  /** An endpoint's result: the value it returns, or the `HTTPException` it raises. */
  datatype Outcome<T> = Success(value: T) | HttpError(code: int, detail: string)

  // ------------------------------------------------------ The knowledge base

  datatype Info = Info(symptoms: seq<string>, advice: seq<string>)

  datatype KbEntry = KbEntry(key: string, info: Info)

  /** A JSON object read from the file: its entries in file order. */
  type KnowledgeBase = seq<KbEntry>

  function Keys(kb: KnowledgeBase): (r: seq<string>)
    ensures |r| == |kb|
    ensures forall i :: 0 <= i < |kb| ==> r[i] == kb[i].key
  {
    if kb == [] then [] else [kb[0].key] + Keys(kb[1..])
  }

  lemma KeysAppend(a: KnowledgeBase, b: KnowledgeBase)
    ensures Keys(a + b) == Keys(a) + Keys(b)
  {
    assert forall i :: 0 <= i < |a + b| ==> Keys(a + b)[i] == (Keys(a) + Keys(b))[i];
  }

  /** A dictionary holds each key once. */
  predicate UniqueKeys(kb: KnowledgeBase) {
    kb == [] || (kb[0].key !in Keys(kb[1..]) && UniqueKeys(kb[1..]))
  }

  /** `data.get(key)`. */
  function Lookup(kb: KnowledgeBase, key: string): (r: Option<Info>)
    ensures r.Some? <==> key in Keys(kb)
  {
    if kb == [] then None
    else if kb[0].key == key then Some(kb[0].info)
    else Lookup(kb[1..], key)
  }

  /** `data[key] = info`: an existing key keeps its place, a new key goes last. */
  function Put(kb: KnowledgeBase, key: string, info: Info): (r: KnowledgeBase)
    ensures Keys(r) == if key in Keys(kb) then Keys(kb) else Keys(kb) + [key]
  {
    if kb == [] then [KbEntry(key, info)]
    else if kb[0].key == key then [KbEntry(key, info)] + kb[1..]
    else [kb[0]] + Put(kb[1..], key, info)
  }

  /** `del data[key]`. */
  function Remove(kb: KnowledgeBase, key: string): (r: KnowledgeBase)
    ensures forall k :: k in Keys(r) <==> k in Keys(kb) && k != key
    ensures |r| <= |kb|
  {
    if kb == [] then []
    else
      var head := if kb[0].key == key then [] else [kb[0]];
      KeysAppend(head, Remove(kb[1..], key));
      assert Keys(kb) == [kb[0].key] + Keys(kb[1..]);
      head + Remove(kb[1..], key)
  }

  lemma {:induction false} PutLookup(kb: KnowledgeBase, key: string, info: Info, k: string)
    ensures Lookup(Put(kb, key, info), k) == if k == key then Some(info) else Lookup(kb, k)
  {
    if kb != [] && kb[0].key != key {
      PutLookup(kb[1..], key, info, k);
      assert Put(kb, key, info)[1..] == Put(kb[1..], key, info);
    }
  }

  lemma {:induction false} PutUnique(kb: KnowledgeBase, key: string, info: Info)
    requires UniqueKeys(kb)
    ensures UniqueKeys(Put(kb, key, info))
  {
    var r := Put(kb, key, info);
    if kb == [] {
    } else if kb[0].key == key {
      assert r[1..] == kb[1..];
    } else {
      PutUnique(kb[1..], key, info);
      assert r[1..] == Put(kb[1..], key, info);
      assert Keys(r) == [kb[0].key] + Keys(r[1..]);
    }
  }

  lemma {:induction false} RemoveLookup(kb: KnowledgeBase, key: string, k: string)
    ensures Lookup(Remove(kb, key), k) == if k == key then None else Lookup(kb, k)
  {
    if kb != [] {
      RemoveLookup(kb[1..], key, k);
      var rest := Remove(kb[1..], key);
      if kb[0].key != key {
        var r := Remove(kb, key);
        assert r == [kb[0]] + rest;
        assert r[0] == kb[0] && r[1..] == rest;
      } else {
        assert Remove(kb, key) == rest;
      }
    }
  }

  lemma {:induction false} RemoveUnique(kb: KnowledgeBase, key: string)
    requires UniqueKeys(kb)
    ensures UniqueKeys(Remove(kb, key))
  {
    if kb != [] {
      RemoveUnique(kb[1..], key);
      var rest := Remove(kb[1..], key);
      if kb[0].key != key {
        var r := Remove(kb, key);
        assert r == [kb[0]] + rest;
        assert r[0] == kb[0] && r[1..] == rest;
        assert kb[0].key !in Keys(rest);
      } else {
        assert Remove(kb, key) == rest;
      }
    }
  }

  lemma {:induction false} RemoveAbsent(kb: KnowledgeBase, key: string)
    requires key !in Keys(kb)
    ensures Remove(kb, key) == kb
  {
    if kb != [] {
      assert Keys(kb) == [kb[0].key] + Keys(kb[1..]);
      RemoveAbsent(kb[1..], key);
    }
  }

  /** In a dictionary, deleting the i-th key drops exactly that entry and keeps the others in order. */
  lemma {:induction false} RemoveAt(kb: KnowledgeBase, i: nat)
    requires UniqueKeys(kb) && i < |kb|
    ensures Remove(kb, kb[i].key) == kb[..i] + kb[i + 1..]
  {
    var key := kb[i].key;
    if i == 0 {
      RemoveAbsent(kb[1..], key);
    } else {
      var tail := kb[1..];
      assert tail[i - 1] == kb[i];
      assert kb[0].key != key by {
        assert Keys(tail)[i - 1] == key;
      }
      RemoveAt(tail, i - 1);
      RemoveKeepsHead(kb, key);
      SplitAround(kb, i);
    }
  }

  lemma RemoveKeepsHead(kb: KnowledgeBase, key: string)
    requires kb != [] && kb[0].key != key
    ensures Remove(kb, key) == [kb[0]] + Remove(kb[1..], key)
  {
  }

  lemma SplitAround(kb: KnowledgeBase, i: nat)
    requires 0 < i < |kb|
    ensures kb[..i] + kb[i + 1..] == [kb[0]] + (kb[1..][..i - 1] + kb[1..][i..])
  {
    assert kb[..i] == [kb[0]] + kb[1..][..i - 1];
    assert kb[i + 1..] == kb[1..][i..];
  }

  /** Deleting a disease just added gives back the file as it was. */
  lemma {:induction false} AddThenRemove(kb: KnowledgeBase, key: string, info: Info)
    requires key !in Keys(kb)
    ensures Remove(Put(kb, key, info), key) == kb
  {
    if kb == [] {
    } else {
      assert Keys(kb) == [kb[0].key] + Keys(kb[1..]);
      AddThenRemove(kb[1..], key, info);
      assert Put(kb, key, info) == [kb[0]] + Put(kb[1..], key, info);
      assert Remove(Put(kb, key, info), key) == [kb[0]] + Remove(Put(kb[1..], key, info), key);
    }
  }

  /** In a dictionary every entry is what looking up its own key returns. */
  lemma {:induction false} LookupAt(kb: KnowledgeBase, i: nat)
    requires UniqueKeys(kb) && i < |kb|
    ensures Lookup(kb, kb[i].key) == Some(kb[i].info)
  {
    if i > 0 {
      assert kb[i].key == Keys(kb[1..])[i - 1];
      LookupAt(kb[1..], i - 1);
      assert kb[1..][i - 1] == kb[i];
    }
  }

  /** Every key was written through `name.lower()`. */
  predicate AllKeysLower(kb: KnowledgeBase) {
    forall i :: 0 <= i < |kb| ==> IsLower(kb[i].key)
  }

  lemma PutKeepsLower(kb: KnowledgeBase, key: string, info: Info)
    requires AllKeysLower(kb) && IsLower(key)
    ensures AllKeysLower(Put(kb, key, info))
  {
    var r := Put(kb, key, info);
    forall i | 0 <= i < |r|
      ensures IsLower(r[i].key)
    {
      assert r[i].key == Keys(r)[i];
      if i < |kb| {
        assert Keys(r)[i] == Keys(kb)[i];
      }
    }
  }

  lemma RemoveKeepsLower(kb: KnowledgeBase, key: string)
    requires AllKeysLower(kb)
    ensures AllKeysLower(Remove(kb, key))
  {
    var r := Remove(kb, key);
    forall i | 0 <= i < |r|
      ensures IsLower(r[i].key)
    {
      assert r[i].key in Keys(r);
      assert r[i].key in Keys(kb);
      var j :| 0 <= j < |kb| && Keys(kb)[j] == r[i].key;
    }
  }

  /** A disease as the listing and the request bodies carry it. */
  datatype Disease = Disease(name: string, symptoms: seq<string>, advice: seq<string>)

  /** `get_knowledge_base`'s projection: one entry per key, named by the key. */
  function Listing(kb: KnowledgeBase): (r: seq<Disease>)
    ensures |r| == |kb|
  {
    seq(|kb|, i requires 0 <= i < |kb| => Disease(kb[i].key, kb[i].info.symptoms, kb[i].info.advice))
  }

  /** The listing names exactly the keys, in order, each with the data stored under it. */
  lemma ListingMatchesFile(kb: KnowledgeBase, i: nat)
    requires UniqueKeys(kb) && i < |kb|
    ensures Listing(kb)[i].name == Keys(kb)[i]
    ensures Lookup(kb, Listing(kb)[i].name) == Some(Info(Listing(kb)[i].symptoms, Listing(kb)[i].advice))
  {
    LookupAt(kb, i);
  }

  /** A listed name, lower-cased again by the edit and delete endpoints, finds its own entry. */
  lemma ListedNameFound(kb: KnowledgeBase, i: nat)
    requires AllKeysLower(kb) && i < |kb|
    ensures Lower(Listing(kb)[i].name) in Keys(kb)
  {
    LowerOfLower(kb[i].key);
    assert Keys(kb)[i] == kb[i].key;
  }

  /** The decoded JWT payload: a JSON object of text claims. */
  type Claims = map<string, string>

  function Get(c: Claims, name: string): Option<string> {
    if name in c then Some(c[name]) else None
  }

  /**
   * `get_current_admin`: a payload that decodes to a non-empty object whose
   * "email" claim equals `ADMIN_EMAIL` (both possibly unset) is accepted.
   */
  function AdminAccess(payload: Option<Claims>, adminEmail: Option<string>): (r: Outcome<Option<string>>)
    ensures r.Success? <==> payload.Some? && payload.value != map[] && Get(payload.value, "email") == adminEmail
    ensures r.Success? ==> r.value == adminEmail
    ensures r.HttpError? ==> r.code == 401 && r.detail == "Invalid or expired admin token"
  {
    if payload.None? || payload.value == map[] || Get(payload.value, "email") != adminEmail
    then HttpError(401, "Invalid or expired admin token")
    else Success(adminEmail)
  }

  /** With `ADMIN_EMAIL` configured, a token is accepted only if it carries that email. */
  lemma AdminNeedsConfiguredEmail(payload: Option<Claims>, email: string)
    requires AdminAccess(payload, Some(email)).Success?
    ensures "email" in payload.value && payload.value["email"] == email
  {
  }

  /** With `ADMIN_EMAIL` unset, any non-empty payload without an email claim is accepted. */
  lemma UnsetAdminEmailAcceptsEmailless(c: Claims)
    requires c != map[] && "email" !in c
    ensures AdminAccess(Some(c), None).Success?
  {
  }

  /** A disease request body. */
  datatype DiseaseModel = DiseaseModel(name: string, symptoms: seq<string>, advice: seq<string>)

  /** The knowledge-base file, read and rewritten whole by every endpoint. */
  class KnowledgeBaseFile {
    var data: KnowledgeBase

    constructor (data: KnowledgeBase)
      ensures this.data == data
    {
      this.data := data;
    }

    /** `get_knowledge_base`. */
    method GetKnowledgeBase(payload: Option<Claims>, adminEmail: Option<string>)
      returns (r: Outcome<seq<Disease>>)
      ensures AdminAccess(payload, adminEmail).HttpError? ==> r == HttpError(401, "Invalid or expired admin token")
      ensures AdminAccess(payload, adminEmail).Success? ==>
        && r.Success? && r.value == Listing(data)
        && |r.value| == |data|
        && forall i :: 0 <= i < |data| ==> r.value[i].name == Keys(data)[i]
    {
      var access := AdminAccess(payload, adminEmail);
      if access.HttpError? {
        return HttpError(access.code, access.detail);
      }
      r := Success(Listing(data));
    }

    /** `add_disease`: a new lower-cased key is appended; an existing one is refused with 400. */
    method AddDisease(payload: Option<Claims>, adminEmail: Option<string>, d: DiseaseModel)
      returns (r: Outcome<string>)
      modifies this
      ensures AdminAccess(payload, adminEmail).HttpError? ==>
        r == HttpError(401, "Invalid or expired admin token") && data == old(data)
      ensures AdminAccess(payload, adminEmail).Success? && Lower(d.name) in Keys(old(data)) ==>
        r == HttpError(400, "Disease already exists") && data == old(data)
      ensures AdminAccess(payload, adminEmail).Success? && Lower(d.name) !in Keys(old(data)) ==>
        && r == Success(d.name + " added successfully!")
        && data == Put(old(data), Lower(d.name), Info(d.symptoms, d.advice))
        && Keys(data) == Keys(old(data)) + [Lower(d.name)]
      ensures UniqueKeys(old(data)) ==> UniqueKeys(data)
      ensures AllKeysLower(old(data)) ==> AllKeysLower(data)
    {
      var access := AdminAccess(payload, adminEmail);
      if access.HttpError? {
        return HttpError(access.code, access.detail);
      }
      var kb := data;
      var key := Lower(d.name);
      if key in Keys(kb) {
        return HttpError(400, "Disease already exists");
      }
      if UniqueKeys(kb) {
        PutUnique(kb, key, Info(d.symptoms, d.advice));
      }
      if AllKeysLower(kb) {
        PutKeepsLower(kb, key, Info(d.symptoms, d.advice));
      }
      kb := Put(kb, key, Info(d.symptoms, d.advice));
      data := kb;
      r := Success(d.name + " added successfully!");
    }

    /** `edit_disease`: the path name's lower-cased key must exist (404); only its value changes. */
    method EditDisease(payload: Option<Claims>, adminEmail: Option<string>, name: string, d: DiseaseModel)
      returns (r: Outcome<string>)
      modifies this
      ensures AdminAccess(payload, adminEmail).HttpError? ==>
        r == HttpError(401, "Invalid or expired admin token") && data == old(data)
      ensures AdminAccess(payload, adminEmail).Success? && Lower(name) !in Keys(old(data)) ==>
        r == HttpError(404, "Disease not found") && data == old(data)
      ensures AdminAccess(payload, adminEmail).Success? && Lower(name) in Keys(old(data)) ==>
        && r == Success(name + " updated successfully!")
        && data == Put(old(data), Lower(name), Info(d.symptoms, d.advice))
        && Keys(data) == Keys(old(data))
      ensures UniqueKeys(old(data)) ==> UniqueKeys(data)
      ensures AllKeysLower(old(data)) ==> AllKeysLower(data)
    {
      var access := AdminAccess(payload, adminEmail);
      if access.HttpError? {
        return HttpError(access.code, access.detail);
      }
      var kb := data;
      var key := Lower(name);
      if key !in Keys(kb) {
        return HttpError(404, "Disease not found");
      }
      if UniqueKeys(kb) {
        PutUnique(kb, key, Info(d.symptoms, d.advice));
      }
      if AllKeysLower(kb) {
        PutKeepsLower(kb, key, Info(d.symptoms, d.advice));
      }
      kb := Put(kb, key, Info(d.symptoms, d.advice));
      data := kb;
      r := Success(name + " updated successfully!");
    }

    /** `remove_disease`: the lower-cased key must exist (404); only it disappears. */
    method RemoveDisease(payload: Option<Claims>, adminEmail: Option<string>, name: string)
      returns (r: Outcome<string>)
      modifies this
      ensures AdminAccess(payload, adminEmail).HttpError? ==>
        r == HttpError(401, "Invalid or expired admin token") && data == old(data)
      ensures AdminAccess(payload, adminEmail).Success? && Lower(name) !in Keys(old(data)) ==>
        r == HttpError(404, "Disease not found") && data == old(data)
      ensures AdminAccess(payload, adminEmail).Success? && Lower(name) in Keys(old(data)) ==>
        && r == Success(name + " deleted successfully!")
        && data == Remove(old(data), Lower(name))
      ensures AdminAccess(payload, adminEmail).Success? && UniqueKeys(old(data)) ==>
        forall i :: 0 <= i < |old(data)| && old(data)[i].key == Lower(name) ==>
          data == old(data)[..i] + old(data)[i + 1..]
      ensures UniqueKeys(old(data)) ==> UniqueKeys(data)
      ensures AllKeysLower(old(data)) ==> AllKeysLower(data)
    {
      var access := AdminAccess(payload, adminEmail);
      if access.HttpError? {
        return HttpError(access.code, access.detail);
      }
      var kb := data;
      var key := Lower(name);
      if key !in Keys(kb) {
        return HttpError(404, "Disease not found");
      }
      if UniqueKeys(kb) {
        RemoveUnique(kb, key);
        forall i | 0 <= i < |kb| && kb[i].key == key
          ensures Remove(kb, key) == kb[..i] + kb[i + 1..]
        {
          RemoveAt(kb, i);
        }
      }
      if AllKeysLower(kb) {
        RemoveKeepsLower(kb, key);
      }
      kb := Remove(kb, key);
      data := kb;
      r := Success(name + " deleted successfully!");
    }
  }

  // ------------------------------------------------------------- Feedback

  /** A row of the feedback table, in insertion order. */
  datatype FeedbackRow = FeedbackRow(userId: int, rating: string, review: string)

  /** A row of `get_all_feedbacks`: the author's username with the rating and review. */
  datatype FeedbackView = FeedbackView(username: string, rating: string, review: string)

  /**
   * `get_all_feedbacks`: rows joined with their author, newest first. Rows
   * whose author is not a user drop out of the join.
   */
  function AllFeedbacks(rows: seq<FeedbackRow>, users: map<int, string>): (r: seq<FeedbackView>)
    ensures |r| <= |rows|
    decreases |rows|
  {
    if rows == [] then []
    else
      var last := rows[|rows| - 1];
      (if last.userId in users then [FeedbackView(users[last.userId], last.rating, last.review)] else [])
      + AllFeedbacks(rows[..|rows| - 1], users)
  }

  /** One row is listed under its author's username, or not at all when the author is not a user. */
  lemma AllFeedbacksSingle(row: FeedbackRow, users: map<int, string>)
    ensures AllFeedbacks([row], users) ==
      if row.userId in users then [FeedbackView(users[row.userId], row.rating, row.review)] else []
  {
    assert [row][..0] == [];
  }

  /** Appended rows come first in the listing. */
  lemma {:induction false} AllFeedbacksAppend(a: seq<FeedbackRow>, b: seq<FeedbackRow>, users: map<int, string>)
    ensures AllFeedbacks(a + b, users) == AllFeedbacks(b, users) + AllFeedbacks(a, users)
    decreases |b|
  {
    if b == [] {
      assert a + b == a;
    } else {
      var last := b[|b| - 1];
      assert (a + b)[..|a + b| - 1] == a + b[..|b| - 1];
      assert (a + b)[|a + b| - 1] == last;
      AllFeedbacksAppend(a, b[..|b| - 1], users);
    }
  }

  /** `sum(1 for f in feedbacks if f["rating"].lower() == rating)`. */
  function CountRating(fs: seq<FeedbackView>, rating: string): (n: nat)
    ensures n <= |fs|
  {
    if fs == [] then 0
    else (if Lower(fs[0].rating) == rating then 1 else 0) + CountRating(fs[1..], rating)
  }

  /** A review is counted at most once, so the two counts never exceed the number of reviews. */
  lemma {:induction false} CountsBounded(fs: seq<FeedbackView>)
    ensures CountRating(fs, "positive") + CountRating(fs, "negative") <= |fs|
  {
    if fs != [] {
      CountsBounded(fs[1..]);
    }
  }

  /** The count ignores the case of the stored ratings: listings that agree after lower-casing count alike. */
  lemma {:induction false} CountIgnoresCase(fs: seq<FeedbackView>, gs: seq<FeedbackView>, rating: string)
    requires |fs| == |gs|
    requires forall i :: 0 <= i < |fs| ==> Lower(fs[i].rating) == Lower(gs[i].rating)
    ensures CountRating(fs, rating) == CountRating(gs, rating)
  {
    if fs != [] {
      assert forall i :: 0 <= i < |fs| - 1 ==> fs[1..][i] == fs[i + 1] && gs[1..][i] == gs[i + 1];
      CountIgnoresCase(fs[1..], gs[1..], rating);
    }
  }

  /** The `i`-th sample review the stats endpoint seeds. */
  function SeedRow(i: nat): FeedbackRow {
    FeedbackRow(1, if i % 2 == 0 then "Positive" else "Negative", "Sample review " + Decimal(i + 1))
  }

  function SeedRows(): (r: seq<FeedbackRow>)
    ensures |r| == 5
  {
    seq(5, i requires 0 <= i < 5 => SeedRow(i))
  }

  /** The listing of the `i`-th sample review under the username `u`. */
  function SeedView(u: string, i: nat): FeedbackView {
    FeedbackView(u, SeedRow(i).rating, SeedRow(i).review)
  }

  /** With user 1 present the seeded rows list newest first; without it they drop out of the join. */
  lemma SeedListing(users: map<int, string>)
    ensures 1 in users ==>
              AllFeedbacks(SeedRows(), users) ==
              [SeedView(users[1], 4), SeedView(users[1], 3), SeedView(users[1], 2), SeedView(users[1], 1), SeedView(users[1], 0)]
    ensures 1 !in users ==> AllFeedbacks(SeedRows(), users) == []
  {
    var s := SeedRows();
    var e := AllFeedbacks([], users);
    var v := if 1 in users then [SeedView(users[1], 0)] else [];
    assert AllFeedbacks(s[..1], users) == v + e by {
      assert s[..1][..0] == [];
    }
    v := (if 1 in users then [SeedView(users[1], 1)] else []) + v;
    assert AllFeedbacks(s[..2], users) == v by {
      assert s[..2][..1] == s[..1];
    }
    v := (if 1 in users then [SeedView(users[1], 2)] else []) + v;
    assert AllFeedbacks(s[..3], users) == v by {
      assert s[..3][..2] == s[..2];
    }
    v := (if 1 in users then [SeedView(users[1], 3)] else []) + v;
    assert AllFeedbacks(s[..4], users) == v by {
      assert s[..4][..3] == s[..3];
    }
    v := (if 1 in users then [SeedView(users[1], 4)] else []) + v;
    assert AllFeedbacks(s, users) == v by {
      assert s[..4] == s[..|s| - 1];
    }
  }

  /** Five reviews rated "Positive", "Negative", "Positive", "Negative", "Positive" count three and two. */
  lemma AlternatingCounts(views: seq<FeedbackView>)
    requires |views| == 5
    requires views[0].rating == views[2].rating == views[4].rating == "Positive"
    requires views[1].rating == views[3].rating == "Negative"
    ensures CountRating(views, "positive") == 3 && CountRating(views, "negative") == 2
  {
    assert Lower("Positive") == "positive";
    assert Lower("Negative") == "negative";
    assert views[4..][1..] == [];
    assert CountRating(views[4..], "positive") == 1 && CountRating(views[4..], "negative") == 0;
    assert views[3..][1..] == views[4..];
    assert CountRating(views[3..], "positive") == 1 && CountRating(views[3..], "negative") == 1;
    assert views[2..][1..] == views[3..];
    assert CountRating(views[2..], "positive") == 2 && CountRating(views[2..], "negative") == 1;
    assert views[1..][1..] == views[2..];
    assert CountRating(views[1..], "positive") == 2 && CountRating(views[1..], "negative") == 2;
  }

  /** The seeded rows count as three positive and two negative reviews when user 1 exists, and list as nothing otherwise. */
  lemma SeedCounts(users: map<int, string>)
    ensures 1 in users ==>
      && CountRating(AllFeedbacks(SeedRows(), users), "positive") == 3
      && CountRating(AllFeedbacks(SeedRows(), users), "negative") == 2
    ensures 1 !in users ==> AllFeedbacks(SeedRows(), users) == []
  {
    SeedListing(users);
    if 1 in users {
      var u := users[1];
      var views := [SeedView(u, 4), SeedView(u, 3), SeedView(u, 2), SeedView(u, 1), SeedView(u, 0)];
      assert views[0].rating == views[2].rating == views[4].rating == "Positive";
      assert views[1].rating == views[3].rating == "Negative";
      AlternatingCounts(views);
    }
  }

  /** When the listing was empty, the seeded listing is the seed rows' listing alone. */
  lemma SeededListing(rows: seq<FeedbackRow>, users: map<int, string>)
    requires AllFeedbacks(rows, users) == []
    ensures AllFeedbacks(rows + SeedRows(), users) == AllFeedbacks(SeedRows(), users)
  {
    AllFeedbacksAppend(rows, SeedRows(), users);
  }

  /** `latest_reviews`: the first three rows of the listing, or all of them. */
  function Latest(all: seq<FeedbackView>): (r: seq<FeedbackView>)
    ensures |r| == if |all| < 3 then |all| else 3
    ensures forall i :: 0 <= i < |r| ==> r[i] == all[i]
  {
    if |all| <= 3 then all else all[..3]
  }

  /** The values `admin_stats` reports, without their emoji prefixes. */
  datatype Stats = Stats(users: nat, positive: nat, negative: nat, diseases: nat)

  /** A row of the chat table. */
  datatype ChatRow = ChatRow(userId: int, message: string, response: string)

  /** `get_chats(user_id)`: that user's rows in insertion order. */
  function ChatsOf(chats: seq<ChatRow>, userId: int): (r: seq<ChatRow>)
    ensures |r| <= |chats|
    ensures forall i :: 0 <= i < |r| ==> r[i].userId == userId
    ensures forall i :: 0 <= i < |chats| && chats[i].userId == userId ==> chats[i] in r
  {
    if chats == [] then []
    else (if chats[0].userId == userId then [chats[0]] else []) + ChatsOf(chats[1..], userId)
  }

  /** A user's history keeps the table's order: the rows of a later part follow those of an earlier one. */
  lemma {:induction false} ChatsOfAppend(a: seq<ChatRow>, b: seq<ChatRow>, userId: int)
    ensures ChatsOf(a + b, userId) == ChatsOf(a, userId) + ChatsOf(b, userId)
    decreases |a|
  {
    if a == [] {
      assert a + b == b;
    } else {
      assert (a + b)[0] == a[0];
      assert (a + b)[1..] == a[1..] + b;
      ChatsOfAppend(a[1..], b, userId);
    }
  }

  /** Every row of the table is in exactly one of the user's history and the rest. */
  lemma {:induction false} ChatsPartition(chats: seq<ChatRow>, userId: int)
    ensures |ChatsOf(chats, userId)| + |ChatsExcept(chats, userId)| == |chats|
  {
    if chats != [] {
      ChatsPartition(chats[1..], userId);
    }
  }

  /** The table after `clear_chats(user_id)`. */
  function ChatsExcept(chats: seq<ChatRow>, userId: int): (r: seq<ChatRow>)
    ensures |r| <= |chats|
  {
    if chats == [] then []
    else (if chats[0].userId == userId then [] else [chats[0]]) + ChatsExcept(chats[1..], userId)
  }

  /** Clearing a user's chats empties that user's history and leaves every other history as it was. */
  lemma {:induction false} ClearOnlyOwnChats(chats: seq<ChatRow>, userId: int, other: int)
    ensures ChatsOf(ChatsExcept(chats, userId), other) == if other == userId then [] else ChatsOf(chats, other)
  {
    if chats != [] {
      ClearOnlyOwnChats(chats[1..], userId, other);
      var rest := ChatsExcept(chats[1..], userId);
      if chats[0].userId != userId {
        var r := ChatsExcept(chats, userId);
        assert r == [chats[0]] + rest;
        assert r[0] == chats[0] && r[1..] == rest;
      } else {
        assert ChatsExcept(chats, userId) == rest;
      }
    }
  }

  /** The three tables the endpoints here touch. */
  class Database {
    var users: map<int, string>
    var feedbacks: seq<FeedbackRow>
    var chats: seq<ChatRow>

    constructor (users: map<int, string>, feedbacks: seq<FeedbackRow>, chats: seq<ChatRow>)
      ensures this.users == users && this.feedbacks == feedbacks && this.chats == chats
    {
      this.users := users;
      this.feedbacks := feedbacks;
      this.chats := chats;
    }

    /**
     * `admin_stats`: an empty listing is first seeded with five sample
     * reviews by user 1; then the ratings of the listing are counted.
     */
    method AdminStats(payload: Option<Claims>, adminEmail: Option<string>, kb: KnowledgeBase)
      returns (r: Outcome<Stats>)
      modifies this
      ensures users == old(users) && chats == old(chats)
      ensures AdminAccess(payload, adminEmail).HttpError? ==>
        r == HttpError(401, "Invalid or expired admin token") && feedbacks == old(feedbacks)
      ensures AdminAccess(payload, adminEmail).Success? ==>
        && feedbacks == (if AllFeedbacks(old(feedbacks), users) == [] then old(feedbacks) + SeedRows() else old(feedbacks))
        && r == Success(Stats(|users|,
                              CountRating(AllFeedbacks(feedbacks, users), "positive"),
                              CountRating(AllFeedbacks(feedbacks, users), "negative"),
                              |kb|))
    {
      var access := AdminAccess(payload, adminEmail);
      if access.HttpError? {
        return HttpError(access.code, access.detail);
      }
      var all := AllFeedbacks(feedbacks, users);
      if all == [] {
        for i := 0 to 5
          invariant feedbacks == old(feedbacks) + SeedRows()[..i]
          invariant users == old(users) && chats == old(chats)
        {
          assert SeedRows()[..i + 1] == SeedRows()[..i] + [SeedRow(i)];
          feedbacks := feedbacks + [SeedRow(i)];
        }
        assert SeedRows()[..5] == SeedRows();
        all := AllFeedbacks(feedbacks, users);
      }
      var positive := CountRating(all, "positive");
      var negative := CountRating(all, "negative");
      r := Success(Stats(|users|, positive, negative, |kb|));
    }

    /** `latest_reviews`. */
    method LatestReviews(payload: Option<Claims>, adminEmail: Option<string>)
      returns (r: Outcome<seq<FeedbackView>>)
      ensures AdminAccess(payload, adminEmail).HttpError? ==> r == HttpError(401, "Invalid or expired admin token")
      ensures AdminAccess(payload, adminEmail).Success? ==> r == Success(Latest(AllFeedbacks(feedbacks, users)))
    {
      var access := AdminAccess(payload, adminEmail);
      if access.HttpError? {
        return HttpError(access.code, access.detail);
      }
      r := Success(Latest(AllFeedbacks(feedbacks, users)));
    }

    /** `get_user_chats`: only the caller's own history, else 403. */
    method GetUserChats(caller: int, userId: int) returns (r: Outcome<seq<ChatRow>>)
      ensures caller != userId ==> r == HttpError(403, "Access denied")
      ensures caller == userId ==> r.Success? && r.value == ChatsOf(chats, caller)
    {
      if caller != userId {
        return HttpError(403, "Access denied");
      }
      r := Success(ChatsOf(chats, userId));
    }

    /** `clear_user_chats`: only the caller's own history, else 403 and nothing is deleted. */
    method ClearUserChats(caller: int, userId: int) returns (r: Outcome<string>)
      modifies this
      ensures users == old(users) && feedbacks == old(feedbacks)
      ensures caller != userId ==> r == HttpError(403, "Access denied") && chats == old(chats)
      ensures caller == userId ==> r == Success("Chat history cleared") && chats == ChatsExcept(old(chats), caller)
    {
      if caller != userId {
        return HttpError(403, "Access denied");
      }
      chats := ChatsExcept(chats, userId);
      r := Success("Chat history cleared");
    }
  }

  // ------------------------------------------------------ format_response

  /** One "key: value" line per entry of the dictionary. */
  function ResponseLines(data: seq<(string, string)>): (r: seq<string>)
    ensures |r| == |data|
  {
    seq(|data|, i requires 0 <= i < |data| => data[i].0 + ": " + data[i].1)
  }

  /** `format_response`: the lines joined by newlines; empty exactly for an empty dictionary. */
  function FormatResponse(data: seq<(string, string)>): (r: string)
    ensures r == "" <==> data == []
  {
    var xs := ResponseLines(data);
    assert data != [] ==> xs[0] == data[0].0 + ": " + data[0].1 && |Join(xs, "\n")| >= |xs[0]|;
    Join(xs, "\n")
  }

  /** Splitting the formatted text on newlines gives back one line per entry, when no key or value holds a newline. */
  lemma FormatResponseLines(data: seq<(string, string)>)
    requires |data| >= 1
    requires forall i :: 0 <= i < |data| ==> '\n' !in data[i].0 && '\n' !in data[i].1
    ensures Split(FormatResponse(data), "\n") == ResponseLines(data)
  {
    var xs := ResponseLines(data);
    forall i | 0 <= i < |xs|
      ensures '\n' !in xs[i]
    {
      assert xs[i] == data[i].0 + ": " + data[i].1;
    }
    SplitJoinPadded(xs, '\n', "");
    assert forall i :: 0 <= i < |xs| - 1 ==> "" + xs[1..][i] == xs[1..][i];
    assert Padded("", xs[1..]) == xs[1..];
    assert [xs[0]] + xs[1..] == xs;
    assert ['\n'] + "" == "\n";
  }
}
