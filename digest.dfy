/** `sendNotificationOfUnseenMessages`: tally the unseen messages per recipient into a
    dictionary, then send one email per dictionary key. */
module Digest {
  import opened Prelude
  import opened Digits
  import opened Mail

  /** A populated `to_user_id`: the recipient's user document. */
  datatype Recipient = Recipient(id: UserId, email: string, fullName: string)

  /** A stored message; `toUser` is `None` when the referenced user no longer exists. */
  datatype Message = Message(toUser: Option<Recipient>, seen: bool)

  /** What `User.findById` returns for an id. */
  datatype Account = Account(email: string, fullName: string)

  /** A key of the `unseenCount` object. Using a populated document as a key stores it under
      the document's string form, which is never a user id; an id is stored as itself. */
  datatype TallyKey = DocKey(doc: Recipient) | IdKey(id: UserId)

  /** The `unseenCount` object: its keys in insertion order (the order `for…in` visits
      them) and the number under each. */
  datatype Tally = Tally(keys: seq<TallyKey>, counts: map<TallyKey, nat>)

  ghost predicate ValidTally(t: Tally)
  {
    && (forall i, j :: 0 <= i < j < |t.keys| ==> t.keys[i] != t.keys[j])
    && (forall k :: k in t.counts <==> k in t.keys)
  }

  /** `Message.find({ seen: false })`: every unseen message, as often as it is stored. */
  function Unseen(messages: seq<Message>): (r: seq<Message>)
    ensures forall m :: m in r <==> m in messages && !m.seen
    ensures forall m :: multiset(r)[m] == if m.seen then 0 else multiset(messages)[m]
  {
    if messages == [] then []
    else
      assert messages == [messages[0]] + messages[1..];
      if messages[0].seen then Unseen(messages[1..])
      else [messages[0]] + Unseen(messages[1..])
  }

  /** Every message's recipient populated, so reading `to_user_id._id` cannot throw. */
  predicate Populated(messages: seq<Message>)
  {
    forall i :: 0 <= i < |messages| ==> messages[i].toUser.Some?
  }

  /** The keys the tally keyed by recipient id writes for the first `n` messages. */
  function IdKeys(messages: seq<Message>, n: nat): seq<TallyKey>
    requires n <= |messages|
  {
    if n == 0 then []
    else
      var m := messages[n - 1];
      IdKeys(messages, n - 1) + (if m.toUser.Some? then [IdKey(m.toUser.value.id)] else [])
  }

  /** The keys the handler as written writes for the first `n` messages: the recipient
      documents themselves. */
  function DocKeys(messages: seq<Message>, n: nat): seq<TallyKey>
    requires n <= |messages|
  {
    if n == 0 then []
    else
      var m := messages[n - 1];
      DocKeys(messages, n - 1) + (if m.toUser.Some? then [DocKey(m.toUser.value)] else [])
  }

  /** The handler as written only ever writes document keys. */
  lemma {:induction false} DocKeysAreDocuments(messages: seq<Message>, n: nat)
    requires n <= |messages|
    ensures forall k :: k in DocKeys(messages, n) ==> k.DocKey?
  {
    if n > 0 {
      DocKeysAreDocuments(messages, n - 1);
    }
  }

  /** The distinct keys in order of first appearance: the insertion order of an object. */
  function FirstAppearances(keys: seq<TallyKey>): seq<TallyKey>
  {
    if keys == [] then []
    else
      var d := FirstAppearances(keys[..|keys| - 1]);
      if keys[|keys| - 1] in d then d else d + [keys[|keys| - 1]]
  }

  /** The object's keys are exactly the keys written, each once. */
  lemma {:induction false} FirstAppearancesKeys(keys: seq<TallyKey>)
    ensures forall k :: k in FirstAppearances(keys) <==> k in keys
    ensures forall i, j :: 0 <= i < j < |FirstAppearances(keys)| ==>
              FirstAppearances(keys)[i] != FirstAppearances(keys)[j]
  {
    if keys != [] {
      FirstAppearancesKeys(keys[..|keys| - 1]);
      assert keys == keys[..|keys| - 1] + [keys[|keys| - 1]];
    }
  }

  /** Key `a` is written before key `b` is written for the first time. */
  ghost predicate WrittenBefore(keys: seq<TallyKey>, a: TallyKey, b: TallyKey)
  {
    exists p :: 0 <= p < |keys| && keys[p] == a && b !in keys[..p + 1]
  }

  /** Of two keys of the object, the earlier one was written before the later one was
      written for the first time. */
  lemma {:induction false} FirstAppearancesOrder(keys: seq<TallyKey>)
    ensures forall i, j :: 0 <= i < j < |FirstAppearances(keys)| ==>
              WrittenBefore(keys, FirstAppearances(keys)[i], FirstAppearances(keys)[j])
  {
    if keys != [] {
      var init, last := keys[..|keys| - 1], keys[|keys| - 1];
      var d := FirstAppearances(init);
      FirstAppearancesOrder(init);
      FirstAppearancesKeys(init);
      assert keys == init + [last];
      var r := FirstAppearances(keys);
      assert r == if last in d then d else d + [last];
      forall i, j | 0 <= i < j < |r|
        ensures WrittenBefore(keys, r[i], r[j])
      {
        assert r[i] == d[i] && d[i] in init;
        var p: nat;
        if j < |d| {
          assert r[j] == d[j] && WrittenBefore(init, d[i], d[j]);
          p :| p < |init| && init[p] == d[i] && d[j] !in init[..p + 1];
        } else {
          assert r[j] == last && last !in init;
          p :| p < |init| && init[p] == d[i];
        }
        assert keys[..p + 1] == init[..p + 1];
        assert keys[p] == r[i] && r[j] !in keys[..p + 1];
      }
    }
  }

  /** Writing one more key appends it to the key order exactly when it is new. */
  lemma FirstAppearancesSnoc(keys: seq<TallyKey>, k: TallyKey)
    ensures FirstAppearances(keys + [k]) ==
              if k in FirstAppearances(keys) then FirstAppearances(keys) else FirstAppearances(keys) + [k]
  {
    assert (keys + [k])[..|keys|] == keys;
  }

  /** How many times `k` occurs in `keys`. */
  function Occurrences(keys: seq<TallyKey>, k: TallyKey): nat
  {
    if keys == [] then 0
    else Occurrences(keys[..|keys| - 1], k) + (if keys[|keys| - 1] == k then 1 else 0)
  }

  lemma {:induction false} OccurrencesCons(x: TallyKey, keys: seq<TallyKey>, k: TallyKey)
    ensures Occurrences([x] + keys, k) == (if x == k then 1 else 0) + Occurrences(keys, k)
    decreases |keys|
  {
    if keys != [] {
      assert ([x] + keys)[..|keys|] == [x] + keys[..|keys| - 1];
      OccurrencesCons(x, keys[..|keys| - 1], k);
    }
  }

  lemma {:induction false} OccurrencesPositive(keys: seq<TallyKey>, k: TallyKey)
    ensures k in keys <==> Occurrences(keys, k) > 0
  {
    if keys != [] {
      OccurrencesPositive(keys[..|keys| - 1], k);
      assert keys == keys[..|keys| - 1] + [keys[|keys| - 1]];
    }
  }

  /** Reference count: the unseen messages addressed to user `id`. */
  function UnseenFor(messages: seq<Message>, id: UserId): nat
  {
    if messages == [] then 0
    else UnseenFor(messages[1..], id)
         + (if !messages[0].seen && messages[0].toUser.Some? && messages[0].toUser.value.id == id
            then 1 else 0)
  }

  /** The id-keyed tally counts, for each recipient, exactly the unseen messages sent to them. */
  lemma {:induction false} IdKeysCount(messages: seq<Message>, id: UserId)
    ensures var unseen := Unseen(messages);
      Occurrences(IdKeys(unseen, |unseen|), IdKey(id)) == UnseenFor(messages, id)
  {
    if messages != [] {
      var m, rest := messages[0], messages[1..];
      IdKeysCount(rest, id);
      var unseen, all := Unseen(rest), Unseen(messages);
      var tail := IdKeys(unseen, |unseen|);
      if !m.seen {
        assert all == [m] + unseen;
        IdKeysCons(m, unseen, |unseen|);
        if m.toUser.Some? {
          assert IdKeys(all, |all|) == [IdKey(m.toUser.value.id)] + tail;
          OccurrencesCons(IdKey(m.toUser.value.id), tail, IdKey(id));
        } else {
          assert IdKeys(all, |all|) == tail;
        }
      } else {
        assert all == unseen;
      }
    }
  }

  lemma {:induction false} IdKeysCons(m: Message, rest: seq<Message>, n: nat)
    requires n <= |rest|
    ensures IdKeys([m] + rest, n + 1) ==
              (if m.toUser.Some? then [IdKey(m.toUser.value.id)] else []) + IdKeys(rest, n)
  {
    if n > 0 {
      IdKeysCons(m, rest, n - 1);
      assert ([m] + rest)[n] == rest[n - 1];
    }
  }

  /** `unseenCount[k] || 0`: a missing key reads as 0. */
  function CountAt(counts: map<TallyKey, nat>, k: TallyKey): nat
  {
    if k in counts then counts[k] else 0
  }

  /** The object that counting the keys `ks` in order builds. */
  function CountMap(ks: seq<TallyKey>): map<TallyKey, nat>
  {
    if ks == [] then map[]
    else
      var m := CountMap(ks[..|ks| - 1]);
      m[ks[|ks| - 1] := CountAt(m, ks[|ks| - 1]) + 1]
  }

  /** The object that storing 1 under each of the keys `ks` builds. */
  function OnesMap(ks: seq<TallyKey>): map<TallyKey, nat>
  {
    if ks == [] then map[] else OnesMap(ks[..|ks| - 1])[ks[|ks| - 1] := 1]
  }

  /** Counting `ks` gives each key of `ks`, and only those, its number of occurrences. */
  lemma {:induction false} CountMapCounts(ks: seq<TallyKey>)
    ensures forall k :: k in CountMap(ks) <==> k in ks
    ensures forall k :: k in CountMap(ks) ==> CountMap(ks)[k] == Occurrences(ks, k)
  {
    if ks != [] {
      var init, last := ks[..|ks| - 1], ks[|ks| - 1];
      CountMapCounts(init);
      OccurrencesPositive(init, last);
      assert ks == init + [last];
    }
  }

  lemma {:induction false} OnesMapOnes(ks: seq<TallyKey>)
    ensures forall k :: k in OnesMap(ks) <==> k in ks
    ensures forall k :: k in OnesMap(ks) ==> OnesMap(ks)[k] == 1
  {
    if ks != [] {
      OnesMapOnes(ks[..|ks| - 1]);
      assert ks == ks[..|ks| - 1] + [ks[|ks| - 1]];
    }
  }

  /** Counting one more key `key` after `ks`, from `keys`/`counts` to `keys'`/`counts'`. */
  lemma {:induction false} CountSnoc(ks: seq<TallyKey>, key: TallyKey,
                                     keys: seq<TallyKey>, counts: map<TallyKey, nat>,
                                     keys': seq<TallyKey>, counts': map<TallyKey, nat>)
    requires keys == FirstAppearances(ks) && counts == CountMap(ks)
    requires keys' == (if key in counts then keys else keys + [key])
    requires counts' == counts[key := CountAt(counts, key) + 1]
    ensures keys' == FirstAppearances(ks + [key]) && counts' == CountMap(ks + [key])
  {
    FirstAppearancesSnoc(ks, key);
    FirstAppearancesKeys(ks);
    CountMapCounts(ks);
    assert (ks + [key])[..|ks|] == ks;
  }

  /** One write of the handler as written after `ks`: the count is read under the id, which
      is never a key, so the document key gets 1. */
  lemma {:induction false} OnesSnoc(unseen: seq<Message>, i: nat, ks: seq<TallyKey>, doc: Recipient,
                                    keys: seq<TallyKey>, counts: map<TallyKey, nat>,
                                    keys': seq<TallyKey>, counts': map<TallyKey, nat>)
    requires i <= |unseen| && ks == DocKeys(unseen, i)
    requires keys == FirstAppearances(ks) && counts == OnesMap(ks)
    requires keys' == (if DocKey(doc) in counts then keys else keys + [DocKey(doc)])
    requires counts' == counts[DocKey(doc) := CountAt(counts, IdKey(doc.id)) + 1]
    ensures keys' == FirstAppearances(ks + [DocKey(doc)]) && counts' == OnesMap(ks + [DocKey(doc)])
  {
    FirstAppearancesSnoc(ks, DocKey(doc));
    FirstAppearancesKeys(ks);
    OnesMapOnes(ks);
    DocKeysAreDocuments(unseen, i);
    assert IdKey(doc.id) !in counts;
    assert (ks + [DocKey(doc)])[..|ks|] == ks;
  }

  /** The object the tally keyed by recipient id holds after the first `n` messages. */
  function IdTally(unseen: seq<Message>, n: nat): Tally
    requires n <= |unseen|
  {
    if n == 0 then Tally([], map[])
    else
      var t, m := IdTally(unseen, n - 1), unseen[n - 1];
      if m.toUser.None? then t
      else
        var key := IdKey(m.toUser.value.id);
        Tally(if key in t.counts then t.keys else t.keys + [key], t.counts[key := CountAt(t.counts, key) + 1])
  }

  /** The object the handler as written holds after the first `n` messages. */
  function DocTally(unseen: seq<Message>, n: nat): Tally
    requires n <= |unseen|
  {
    if n == 0 then Tally([], map[])
    else
      var t, m := DocTally(unseen, n - 1), unseen[n - 1];
      if m.toUser.None? then t
      else
        var doc := m.toUser.value;
        Tally(if DocKey(doc) in t.counts then t.keys else t.keys + [DocKey(doc)],
              t.counts[DocKey(doc) := CountAt(t.counts, IdKey(doc.id)) + 1])
  }

  /** Keyed by recipient id, the object holds the recipients in order of first appearance
      and counts each one's messages. */
  lemma {:induction false} IdTallyCounts(unseen: seq<Message>, n: nat)
    requires n <= |unseen|
    ensures IdTally(unseen, n) == Tally(FirstAppearances(IdKeys(unseen, n)), CountMap(IdKeys(unseen, n)))
  {
    if n > 0 {
      IdTallyCounts(unseen, n - 1);
      var t, ks, m := IdTally(unseen, n - 1), IdKeys(unseen, n - 1), unseen[n - 1];
      if m.toUser.Some? {
        var key := IdKey(m.toUser.value.id);
        var t' := IdTally(unseen, n);
        assert t' == Tally(if key in t.counts then t.keys else t.keys + [key],
                           t.counts[key := CountAt(t.counts, key) + 1]);
        CountSnoc(ks, key, t.keys, t.counts, t'.keys, t'.counts);
        assert IdKeys(unseen, n) == ks + [key];
      } else {
        assert IdTally(unseen, n) == t && IdKeys(unseen, n) == ks;
      }
    }
  }

  /** As written, the object holds the recipient documents in order of first appearance, each
      with count 1. */
  lemma {:induction false} DocTallyOnes(unseen: seq<Message>, n: nat)
    requires n <= |unseen|
    ensures DocTally(unseen, n) == Tally(FirstAppearances(DocKeys(unseen, n)), OnesMap(DocKeys(unseen, n)))
  {
    if n > 0 {
      DocTallyOnes(unseen, n - 1);
      var t, ks, m := DocTally(unseen, n - 1), DocKeys(unseen, n - 1), unseen[n - 1];
      if m.toUser.Some? {
        var doc := m.toUser.value;
        var t' := DocTally(unseen, n);
        assert t' == Tally(if DocKey(doc) in t.counts then t.keys else t.keys + [DocKey(doc)],
                           t.counts[DocKey(doc) := CountAt(t.counts, IdKey(doc.id)) + 1]);
        OnesSnoc(unseen, n - 1, ks, doc, t.keys, t.counts, t'.keys, t'.counts);
        assert DocKeys(unseen, n) == ks + [DocKey(doc)];
      } else {
        assert DocTally(unseen, n) == t && DocKeys(unseen, n) == ks;
      }
    }
  }

  /** The counted object is a well-formed tally of `ks`. */
  lemma {:induction false} CountsValid(ks: seq<TallyKey>)
    ensures ValidTally(Tally(FirstAppearances(ks), CountMap(ks)))
    ensures forall k :: k in CountMap(ks) ==> CountMap(ks)[k] == Occurrences(ks, k)
  {
    FirstAppearancesKeys(ks);
    CountMapCounts(ks);
  }

  /** The object as written is a well-formed tally of `ks` holding 1 everywhere. */
  lemma {:induction false} OnesValid(ks: seq<TallyKey>)
    ensures ValidTally(Tally(FirstAppearances(ks), OnesMap(ks)))
    ensures forall k :: k in OnesMap(ks) ==> OnesMap(ks)[k] == 1
  {
    FirstAppearancesKeys(ks);
    OnesMapOnes(ks);
  }

  /** One more message whose recipient populated. */
  lemma {:induction false} PopulatedStep(unseen: seq<Message>, i: nat)
    requires i < |unseen| && unseen[i].toUser.Some?
    requires forall j :: 0 <= j < i ==> unseen[j].toUser.Some?
    ensures forall j :: 0 <= j < i + 1 ==> unseen[j].toUser.Some?
  {
  }

  /** `unseenCount[w] = (unseenCount[r] || 0) + 1`: read the count under `r`, store one more
      under `w`; a key stored for the first time goes last in the object's key order. */
  method Assign(keys: seq<TallyKey>, counts: map<TallyKey, nat>, w: TallyKey, r: TallyKey)
    returns (keys': seq<TallyKey>, counts': map<TallyKey, nat>)
    ensures keys' == if w in counts then keys else keys + [w]
    ensures counts' == counts[w := CountAt(counts, r) + 1]
  {
    var previous := CountAt(counts, r);
    keys' := keys;
    if w !in counts {
      keys' := keys + [w];
    }
    counts' := counts[w := previous + 1];
  }

  /** The counting loop as evidently intended: writes under the recipient's id until the
      first message whose recipient did not populate, which stops it at `n`. */
  method CountByRecipient(unseen: seq<Message>)
    returns (keys: seq<TallyKey>, counts: map<TallyKey, nat>, n: nat)
    ensures n <= |unseen| && (n < |unseen| ==> unseen[n].toUser.None?)
    ensures forall j :: 0 <= j < n ==> unseen[j].toUser.Some?
    ensures Tally(keys, counts) == IdTally(unseen, n)
  {
    keys, counts, n := [], map[], 0;
    while n < |unseen| && unseen[n].toUser.Some?
      invariant n <= |unseen|
      invariant forall j :: 0 <= j < n ==> unseen[j].toUser.Some?
      invariant Tally(keys, counts) == IdTally(unseen, n)
    {
      var key := IdKey(unseen[n].toUser.value.id);
      keys, counts := Assign(keys, counts, key, key);
      PopulatedStep(unseen, n);
      n := n + 1;
    }
  }

  /** The tally as evidently intended: read and write under the recipient's id. */
  method TallyByRecipient(unseen: seq<Message>) returns (r: Result<Tally>)
    ensures r.Ok? <==> Populated(unseen)
    ensures r.Ok? ==> ValidTally(r.value) && r.value.keys == FirstAppearances(IdKeys(unseen, |unseen|))
    ensures r.Ok? ==> forall k :: k in r.value.counts ==>
              r.value.counts[k] == Occurrences(IdKeys(unseen, |unseen|), k)
  {
    var keys, counts, n := CountByRecipient(unseen);
    if n < |unseen| {
      return Err("Cannot read properties of null (reading '_id')");
    }
    IdTallyCounts(unseen, n);
    CountsValid(IdKeys(unseen, n));
    r := Ok(Tally(keys, counts));
  }

  /** The counting loop as written: writes under the recipient document, reads under the
      recipient's id, until the first message whose recipient did not populate. */
  method CountAsWritten(unseen: seq<Message>)
    returns (keys: seq<TallyKey>, counts: map<TallyKey, nat>, n: nat)
    ensures n <= |unseen| && (n < |unseen| ==> unseen[n].toUser.None?)
    ensures forall j :: 0 <= j < n ==> unseen[j].toUser.Some?
    ensures Tally(keys, counts) == DocTally(unseen, n)
  {
    keys, counts, n := [], map[], 0;
    while n < |unseen| && unseen[n].toUser.Some?
      invariant n <= |unseen|
      invariant forall j :: 0 <= j < n ==> unseen[j].toUser.Some?
      invariant Tally(keys, counts) == DocTally(unseen, n)
    {
      var doc := unseen[n].toUser.value;
      keys, counts := Assign(keys, counts, DocKey(doc), IdKey(doc.id));
      PopulatedStep(unseen, n);
      n := n + 1;
    }
  }

  /** The tally as written: each message is written under its recipient document but read
      under the recipient's id, which is never a key, so every count is 1. */
  method TallyAsWritten(unseen: seq<Message>) returns (r: Result<Tally>)
    ensures r.Ok? <==> Populated(unseen)
    ensures r.Ok? ==> ValidTally(r.value) && r.value.keys == FirstAppearances(DocKeys(unseen, |unseen|))
    ensures r.Ok? ==> forall k :: k in r.value.counts ==> r.value.counts[k] == 1
  {
    var keys, counts, n := CountAsWritten(unseen);
    if n < |unseen| {
      return Err("Cannot read properties of null (reading '_id')");
    }
    DocTallyOnes(unseen, n);
    OnesValid(DocKeys(unseen, n));
    r := Ok(Tally(keys, counts));
  }

  /** The subject line of a digest for `n` unseen messages. */
  function DigestSubject(n: nat): (s: string)
    ensures |s| >= 26 && s[..9] == "You have " && s[|s| - 16..] == " unseen messages"
    ensures AllDigits(s[9..|s| - 16]) && StringToNat(s[9..|s| - 16]) == n
  {
    var digits := NatToString(n);
    StringToNatOfNatToString(n);
    var s := "You have " + digits + " unseen messages";
    assert s[9..|s| - 16] == digits;
    s
  }

  /** Different counts give different subjects: the subject states the count. */
  lemma DigestSubjectInjective(a: nat, b: nat)
    ensures DigestSubject(a) == DigestSubject(b) ==> a == b
  {
    if DigestSubject(a) == DigestSubject(b) {
      var s := DigestSubject(a);
      assert StringToNat(s[9..|s| - 16]) == a;
    }
  }

  /** `User.findById(userId)` for a key of the tally. */
  function Resolve(users: map<UserId, Account>, k: TallyKey): (r: Option<Account>)
    ensures r.Some? <==> k.IdKey? && k.id in users
    ensures r.Some? ==> r.value == users[k.id]
  {
    match k
    case DocKey(_) => None
    case IdKey(id) => if id in users then Some(users[id]) else None
  }

  const NotificationSent := "Notification sent."

  /** The `for…in` loop: one email per key, in key order. A key that finds no user makes
      `user.full_name` throw; the emails already sent stay sent. */
  method SendDigest(users: map<UserId, Account>, t: Tally) returns (sent: seq<Email>, r: Result<string>)
    requires ValidTally(t)
    ensures |sent| <= |t.keys|
    ensures forall i :: 0 <= i < |sent| ==>
              Resolve(users, t.keys[i]).Some?
              && sent[i] == Email(Resolve(users, t.keys[i]).value.email, DigestSubject(t.counts[t.keys[i]]))
    ensures r.Ok? <==> forall i :: 0 <= i < |t.keys| ==> Resolve(users, t.keys[i]).Some?
    ensures r.Ok? ==> |sent| == |t.keys| && r.value == NotificationSent
    ensures r.Err? ==> |sent| < |t.keys| && Resolve(users, t.keys[|sent|]).None?
  {
    sent := [];
    var i := 0;
    while i < |t.keys|
      invariant 0 <= i <= |t.keys| && |sent| == i
      invariant forall j :: 0 <= j < i ==>
                  Resolve(users, t.keys[j]).Some?
                  && sent[j] == Email(Resolve(users, t.keys[j]).value.email, DigestSubject(t.counts[t.keys[j]]))
    {
      var user := Resolve(users, t.keys[i]);
      if user.None? {
        return sent, Err("Cannot read properties of null (reading 'full_name')");
      }
      sent := sent + [Email(user.value.email, DigestSubject(t.counts[t.keys[i]]))];
      i := i + 1;
    }
    r := Ok(NotificationSent);
  }

  /** The digest with the tally keyed by recipient id: one email per recipient of an unseen
      message, in order of their first unseen message, stating how many are unseen. */
  method SendUnseenDigest(users: map<UserId, Account>, messages: seq<Message>)
    returns (sent: seq<Email>, r: Result<string>)
    ensures !Populated(Unseen(messages)) ==> sent == [] && r.Err?
    ensures Populated(Unseen(messages)) ==>
              var unseen := Unseen(messages);
              var recipients := FirstAppearances(IdKeys(unseen, |unseen|));
              && |sent| <= |recipients|
              && (forall i :: 0 <= i < |sent| ==>
                    recipients[i].IdKey? && recipients[i].id in users
                    && sent[i] == Email(users[recipients[i].id].email,
                                        DigestSubject(UnseenFor(messages, recipients[i].id))))
              && (r.Ok? <==> forall i :: 0 <= i < |recipients| ==>
                               recipients[i].IdKey? && recipients[i].id in users)
              && (r.Ok? ==> |sent| == |recipients|)
  {
    var unseen := Unseen(messages);
    var tally := TallyByRecipient(unseen);
    if tally.Err? {
      return [], Err(tally.reason);
    }
    sent, r := SendDigest(users, tally.value);
    forall i | 0 <= i < |sent|
      ensures tally.value.counts[tally.value.keys[i]] == UnseenFor(messages, tally.value.keys[i].id)
    {
      IdKeysCount(messages, tally.value.keys[i].id);
    }
  }

  /** Every key of the tally as written is a recipient document, and there is one as soon as
      there is a message. */
  lemma {:induction false} AsWrittenKeys(unseen: seq<Message>, keys: seq<TallyKey>)
    requires Populated(unseen) && keys == FirstAppearances(DocKeys(unseen, |unseen|))
    ensures forall i :: 0 <= i < |keys| ==> keys[i].DocKey?
    ensures unseen != [] ==> keys != []
  {
    DocKeysAreDocuments(unseen, |unseen|);
    FirstAppearancesKeys(DocKeys(unseen, |unseen|));
    if unseen != [] {
      assert DocKey(unseen[|unseen| - 1].toUser.value) in DocKeys(unseen, |unseen|);
    }
  }

  /** The digest as written: with any unseen message the first key is a recipient document,
      `findById` finds nobody, and the function throws before sending anything. */
  method SendUnseenDigestAsWritten(users: map<UserId, Account>, messages: seq<Message>)
    returns (sent: seq<Email>, r: Result<string>)
    ensures sent == []
    ensures r.Ok? <==> Unseen(messages) == []
  {
    var unseen := Unseen(messages);
    var tally := TallyAsWritten(unseen);
    if tally.Err? {
      return [], Err(tally.reason);
    }
    AsWrittenKeys(unseen, tally.value.keys);
    sent, r := SendDigest(users, tally.value);
    if tally.value.keys != [] {
      assert Resolve(users, tally.value.keys[0]).None?;
    }
  }
}
