/** Batches of broker deliveries: parts that are imported and replied, a panic and the rerun message
    by message, and the acks (executeBatch and runRecovered in mqttclient/dispatcher.go, executeParts
    and importPart in mqttclient/importBatch.go). */
module BatchExecution {
  import opened Calendar
  import opened Rows
  import opened StoreSpec
  import opened DayBatch
  import opened Storage
  import opened Runs
  import opened ImportSpec
  import opened Outcomes
  import opened ImportBatch
  import opened TenantImporter
  import opened World
  import opened DaySplit
  import opened Seqs

  datatype Decoded = Decoded(message: Message, size: nat)

  /** A message of the broker; id stands for its identity, payload for what decoding gives. */
  datatype Delivery = Delivery(id: nat, payload: Option<Decoded>)

  predicate NoDup(s: seq<nat>) {
    forall i, j :: 0 <= i < j < |s| ==> s[i] != s[j]
  }

  function SetOf(s: seq<nat>): set<nat> {
    set x | x in s
  }

  function Ids(msgs: seq<Delivery>): seq<nat> {
    seq(|msgs|, k requires 0 <= k < |msgs| => msgs[k].id)
  }

  predicate DistinctIds(msgs: seq<Delivery>) {
    NoDup(Ids(msgs))
  }

  /** The messages that could be decoded, and their ids. */
  function Decodable(msgs: seq<Delivery>): seq<Delivery> {
    if msgs == [] then []
    else
      var n := |msgs| - 1;
      Decodable(msgs[..n]) + if msgs[n].payload.Some? then [msgs[n]] else []
  }

  ghost predicate AllDecoded(ds: seq<Delivery>) {
    forall k :: 0 <= k < |ds| ==> ds[k].payload.Some?
  }

  lemma {:induction false} DecodableDecoded(msgs: seq<Delivery>)
    ensures AllDecoded(Decodable(msgs))
  {
    if msgs != [] {
      DecodableDecoded(msgs[..|msgs| - 1]);
    }
  }

  function Messages(ds: seq<Delivery>): seq<Message>
    requires AllDecoded(ds)
  {
    seq(|ds|, k requires 0 <= k < |ds| => ds[k].payload.value.message)
  }

  // ----- one part -----

  /** The ids replied of a part: those stored, in order. */
  function Replies(part: seq<Delivery>, errs: seq<Outcome>): seq<nat>
    requires |errs| == |part|
  {
    if part == [] then []
    else
      var n := |part| - 1;
      Replies(part[..n], errs[..n]) + if errs[n] == Ok then [part[n].id] else []
  }

  lemma RepliesNext(part: seq<Delivery>, errs: seq<Outcome>, t: nat)
    requires |errs| == |part| && t < |part|
    ensures Replies(part[..t + 1], errs[..t + 1]) == Replies(part[..t], errs[..t]) + if errs[t] == Ok then [part[t].id] else []
  {
    assert part[..t + 1][..t] == part[..t] && errs[..t + 1][..t] == errs[..t];
  }

  lemma {:induction false} RepliesWithin(part: seq<Delivery>, errs: seq<Outcome>, id: nat)
    requires |errs| == |part| && DistinctIds(part)
    ensures NoDup(Replies(part, errs))
    ensures id in Replies(part, errs) <==> exists k :: 0 <= k < |part| && part[k].id == id && errs[k] == Ok
  {
    if part != [] {
      var n := |part| - 1;
      var init := part[..n];
      assert forall k :: 0 <= k < n ==> Ids(init)[k] == Ids(part)[k];
      RepliesWithin(init, errs[..n], id);
      RepliesWithin(init, errs[..n], part[n].id);
      assert forall k :: 0 <= k < n ==> init[k].id == Ids(part)[k] != Ids(part)[n];
      if exists k :: 0 <= k < |part| && part[k].id == id && errs[k] == Ok {
        var k :| 0 <= k < |part| && part[k].id == id && errs[k] == Ok;
        assert k < n ==> init[k].id == id && errs[..n][k] == Ok;
      }
    }
  }

  lemma {:induction false} RepliesAll(part: seq<Delivery>, errs: seq<Outcome>)
    requires |errs| == |part| && forall k :: 0 <= k < |part| ==> errs[k] == Ok
    ensures Replies(part, errs) == Ids(part)
  {
    if part != [] {
      var n := |part| - 1;
      RepliesAll(part[..n], errs[..n]);
      assert Ids(part) == Ids(part[..n]) + [part[n].id];
    }
  }

  /** The deliveries whose reply went out are stored. */
  ghost predicate Sent(z: Zone, logs: Logs, msgs: seq<Delivery>, n: seq<nat>) {
    forall k :: 0 <= k < |msgs| && msgs[k].id in n ==> Kept(z, logs, msgs[k])
  }

  ghost predicate Kept(z: Zone, logs: Logs, d: Delivery) {
    d.payload.Some? && StoredIn(LogOf(logs, d.payload.value.message.ecId), BlocksOf(z, d.payload.value.message))
  }

  lemma KeptLater(z: Zone, logs: Logs, logs': Logs, d: Delivery)
    requires Kept(z, logs, d) && LogsGrow(logs, logs')
    ensures Kept(z, logs', d)
  {
    var m := d.payload.value.message;
    var log, log' := LogOf(logs, m.ecId), LogOf(logs', m.ecId);
    assert log <= log';
    forall b | b in BlocksOf(z, m) ensures Done(b.point, b.energy) in log' {
      var i :| 0 <= i < |log| && log[i] == Done(b.point, b.energy);
      assert log'[i] == log[i];
    }
  }

  lemma SentLater(z: Zone, logs: Logs, logs': Logs, msgs: seq<Delivery>, n: seq<nat>)
    requires Sent(z, logs, msgs, n) && LogsGrow(logs, logs')
    ensures Sent(z, logs', msgs, n)
  {
    forall k | 0 <= k < |msgs| && msgs[k].id in n ensures Kept(z, logs', msgs[k]) {
      KeptLater(z, logs, logs', msgs[k]);
    }
  }

  // ----- the books of a run over msgs[..i] -----

  function Part(msgs: seq<Delivery>, origin: seq<nat>): (r: seq<Delivery>)
    requires forall t :: 0 <= t < |origin| ==> origin[t] < |msgs|
  {
    seq(|origin|, t requires 0 <= t < |origin| => msgs[origin[t]])
  }

  ghost predicate Increasing(origin: seq<nat>, n: nat) {
    && (forall t :: 0 <= t < |origin| ==> origin[t] < n)
    && (forall s, t :: 0 <= s < t < |origin| ==> origin[s] < origin[t])
  }

  /** Before the run the ids r0 were replied; n is replied since, origin waits in the current part. */
  ghost predicate Ledger(msgs: seq<Delivery>, i: nat, r0: set<nat>, replied: set<nat>, n: seq<nat>, finished: seq<bool>, origin: seq<nat>, ended: bool) {
    && i <= |msgs| == |finished|
    && DistinctIds(msgs)
    && Increasing(origin, i)
    && NoDup(n)
    && replied == (r0 - SetOf(Ids(msgs[..i]))) + SetOf(n)
    && SetOf(n) <= SetOf(Ids(msgs[..i])) - r0
    && (forall k :: k in origin ==> msgs[k].id !in n && msgs[k].id !in r0)
    && (forall k :: 0 <= k < i && (msgs[k].id in n || msgs[k].id in r0) ==> finished[k])
    && (forall k :: 0 <= k < i && k !in origin ==> finished[k] || ended)
  }

  /** What a run over the deliveries leaves, returning (ok) or with a panic. */
  ghost predicate RunDone(msgs: seq<Delivery>, ok: bool, r0: set<nat>, replied: set<nat>, n: seq<nat>, finished: seq<bool>, ended: bool) {
    && NoDup(n)
    && SetOf(n) <= SetOf(Ids(msgs)) - r0
    && (ok ==> |finished| == |msgs| && replied == r0 - SetOf(Ids(msgs)) && Closed(msgs, r0, n, finished, ended))
    && (!ok ==> r0 !! SetOf(Ids(msgs)) && replied == r0 + SetOf(n) && (|msgs| == 1 ==> n == []))
  }

  ghost predicate Closed(msgs: seq<Delivery>, r0: set<nat>, n: seq<nat>, finished: seq<bool>, ended: bool)
    requires |finished| == |msgs|
  {
    forall k :: 0 <= k < |msgs| ==> (msgs[k].id in n || msgs[k].id in r0 ==> finished[k]) && (finished[k] || ended)
  }

  lemma IdsNext(msgs: seq<Delivery>, i: nat)
    requires i < |msgs|
    ensures SetOf(Ids(msgs[..i + 1])) == SetOf(Ids(msgs[..i])) + {msgs[i].id}
    ensures DistinctIds(msgs) ==> msgs[i].id !in SetOf(Ids(msgs[..i]))
  {
    assert Ids(msgs[..i + 1]) == Ids(msgs[..i]) + [msgs[i].id];
    assert forall k :: 0 <= k < i ==> Ids(msgs[..i])[k] == Ids(msgs)[k];
    assert DistinctIds(msgs) ==> forall k :: 0 <= k < i ==> Ids(msgs)[k] != Ids(msgs)[i];
  }

  /** A delivery replied before the panic: forget it and count it as finished. */
  lemma LedgerReplied(msgs: seq<Delivery>, i: nat, r0: set<nat>, replied: set<nat>, n: seq<nat>, finished: seq<bool>, origin: seq<nat>, ended: bool)
    requires i < |msgs| && Ledger(msgs, i, r0, replied, n, finished, origin, ended) && msgs[i].id in replied
    ensures Ledger(msgs, i + 1, r0, replied - {msgs[i].id}, n, finished[i := true], origin, ended)
  {
    IdsNext(msgs, i);
  }

  /** A delivery that is stopped or cannot be decoded. */
  lemma LedgerSkip(msgs: seq<Delivery>, i: nat, r0: set<nat>, replied: set<nat>, n: seq<nat>, finished: seq<bool>, origin: seq<nat>, ended: bool,
                   finished': seq<bool>, ended': bool)
    requires i < |msgs| && Ledger(msgs, i, r0, replied, n, finished, origin, ended) && msgs[i].id !in replied && (ended ==> ended')
    requires |finished'| == |finished| && (forall k :: 0 <= k < i ==> finished'[k] == finished[k]) && (finished'[i] || ended')
    ensures Ledger(msgs, i + 1, r0, replied, n, finished', origin, ended')
  {
    IdsNext(msgs, i);
    assert msgs[i].id !in r0 && msgs[i].id !in n;
  }

  /** A delivery joins the current part. */
  lemma LedgerJoin(msgs: seq<Delivery>, i: nat, r0: set<nat>, replied: set<nat>, n: seq<nat>, finished: seq<bool>, origin: seq<nat>, ended: bool, ended': bool)
    requires i < |msgs| && Ledger(msgs, i, r0, replied, n, finished, origin, ended) && msgs[i].id !in replied && (ended ==> ended')
    ensures Ledger(msgs, i + 1, r0, replied, n, finished, origin + [i], ended')
  {
    IdsNext(msgs, i);
    assert msgs[i].id !in r0 && msgs[i].id !in n;
  }

  /** What replying the part leaves in finished. */
  ghost predicate PartFinished(origin: seq<nat>, errs: seq<Outcome>, finished: seq<bool>, finished': seq<bool>) {
    && |finished'| == |finished| && |errs| == |origin| && Increasing(origin, |finished|)
    && (forall k :: 0 <= k < |finished| && k !in origin ==> finished'[k] == finished[k])
    && (forall t :: 0 <= t < |origin| && errs[t] != Stopped ==> finished'[origin[t]])
  }

  lemma PartDistinct(msgs: seq<Delivery>, origin: seq<nat>)
    requires DistinctIds(msgs) && Increasing(origin, |msgs|)
    ensures DistinctIds(Part(msgs, origin))
  {
    var part := Part(msgs, origin);
    forall s, t | 0 <= s < t < |part| ensures Ids(part)[s] != Ids(part)[t] {
      assert Ids(msgs)[origin[s]] != Ids(msgs)[origin[t]];
    }
  }

  /** The ids replied of a part belong to it, and only they. */
  lemma PartReplies(msgs: seq<Delivery>, origin: seq<nat>, errs: seq<Outcome>, j: nat)
    requires DistinctIds(msgs) && Increasing(origin, |msgs|) && j <= |errs| == |origin|
    ensures var m := Replies(Part(msgs, origin)[..j], errs[..j]);
            NoDup(m) && forall k :: 0 <= k < |msgs| && msgs[k].id in m ==> exists t :: 0 <= t < j && origin[t] == k && errs[t] == Ok
    ensures forall id :: id in Replies(Part(msgs, origin)[..j], errs[..j]) ==> exists k :: k in origin && msgs[k].id == id
  {
    var part := Part(msgs, origin);
    var m := Replies(part[..j], errs[..j]);
    PartDistinct(msgs, origin);
    assert forall t :: 0 <= t < j ==> Ids(part[..j])[t] == Ids(part)[t];
    forall id | id in m ensures exists k :: k in origin && msgs[k].id == id {
      RepliesWithin(part[..j], errs[..j], id);
      var t :| 0 <= t < j && part[..j][t].id == id;
      assert origin[t] in origin;
    }
    forall k | 0 <= k < |msgs| && msgs[k].id in m ensures exists t :: 0 <= t < j && origin[t] == k && errs[t] == Ok {
      RepliesWithin(part[..j], errs[..j], msgs[k].id);
      var t :| 0 <= t < j && part[..j][t].id == msgs[k].id && errs[..j][t] == Ok;
      assert Ids(msgs)[origin[t]] == Ids(msgs)[k];
    }
    RepliesWithin(part[..j], errs[..j], 0);
  }

  ghost predicate InPart(msgs: seq<Delivery>, origin: seq<nat>, m: seq<nat>)
    requires Increasing(origin, |msgs|)
  {
    NoDup(m) && forall id :: id in m ==> exists k :: k in origin && msgs[k].id == id
  }

  lemma NoDupConcat(n: seq<nat>, m: seq<nat>)
    requires NoDup(n) && NoDup(m) && SetOf(n) !! SetOf(m)
    ensures NoDup(n + m)
    ensures SetOf(n + m) == SetOf(n) + SetOf(m)
  {
    forall i, j | 0 <= i < j < |n + m| ensures (n + m)[i] != (n + m)[j] {
      if i < |n| <= j {
        assert n[i] in SetOf(n) && m[j - |n|] in SetOf(m);
      }
    }
  }

  /** Replies of the current part keep the books of replies. */
  lemma LedgerSend(msgs: seq<Delivery>, i: nat, r0: set<nat>, replied: set<nat>, n: seq<nat>, finished: seq<bool>, origin: seq<nat>, ended: bool, m: seq<nat>)
    requires Ledger(msgs, i, r0, replied, n, finished, origin, ended) && InPart(msgs, origin, m)
    ensures NoDup(n + m)
    ensures replied + SetOf(m) == (r0 - SetOf(Ids(msgs[..i]))) + SetOf(n + m)
    ensures SetOf(n + m) <= SetOf(Ids(msgs[..i])) - r0
  {
    forall id | id in m ensures id !in n && id !in r0 && id in Ids(msgs[..i]) {
      var k :| k in origin && msgs[k].id == id;
      assert Ids(msgs[..i])[k] == id;
    }
    NoDupConcat(n, m);
  }

  /** A part that ended without a panic. */
  lemma LedgerPart(msgs: seq<Delivery>, i: nat, r0: set<nat>, replied: set<nat>, n: seq<nat>, finished: seq<bool>, origin: seq<nat>, ended: bool,
                   errs: seq<Outcome>, finished': seq<bool>, ended': bool)
    requires Ledger(msgs, i, r0, replied, n, finished, origin, ended) && (ended ==> ended')
    requires PartFinished(origin, errs, finished, finished') && forall t :: 0 <= t < |errs| && errs[t] == Stopped ==> ended'
    ensures var m := Replies(Part(msgs, origin), errs); Ledger(msgs, i, r0, replied + SetOf(m), n + m, finished', [], ended')
  {
    var part := Part(msgs, origin);
    var m := Replies(part, errs);
    assert part[..|part|] == part && errs[..|errs|] == errs;
    PartReplies(msgs, origin, errs, |origin|);
    LedgerSend(msgs, i, r0, replied, n, finished, origin, ended, m);
    forall k | 0 <= k < i ensures (msgs[k].id in n + m || msgs[k].id in r0 ==> finished'[k]) && (finished'[k] || ended') {
      if k in origin {
        var t :| 0 <= t < |origin| && origin[t] == k;
      }
    }
  }

  /** A panic while the current part is imported and replied. */
  lemma LedgerPanic(msgs: seq<Delivery>, i: nat, r0: set<nat>, replied: set<nat>, n: seq<nat>, finished: seq<bool>, origin: seq<nat>, ended: bool, m: seq<nat>)
    requires Ledger(msgs, i, r0, replied, n, finished, origin, ended) && InPart(msgs, origin, m)
    requires r0 !! SetOf(Ids(msgs)) || |msgs| == 1
    requires origin != [] && (|origin| == 1 ==> m == [])
    ensures RunDone(msgs, false, r0, replied + SetOf(m), n + m, [], ended)
  {
    LedgerSend(msgs, i, r0, replied, n, finished, origin, ended, m);
    PrefixIds(msgs, i);
    var k := origin[0];
    assert k in origin;
    if |msgs| == 1 {
      IncreasingLength(origin, i);
      assert msgs[..i] == msgs;
      assert Ids(msgs) == [msgs[0].id];
      assert msgs[0].id !in n && msgs[0].id !in r0;
      NoneOf(n);
    }
  }

  lemma {:induction false} IncreasingLength(origin: seq<nat>, n: nat)
    requires Increasing(origin, n)
    ensures |origin| <= n
    decreases |origin|
  {
    if origin != [] {
      IncreasingLength(origin[..|origin| - 1], origin[|origin| - 1]);
    }
  }

  lemma NoneOf(n: seq<nat>)
    ensures SetOf(n) == {} ==> n == []
  {
    assert n != [] ==> n[0] in SetOf(n);
  }

  lemma PrefixIds(msgs: seq<Delivery>, i: nat)
    requires i <= |msgs|
    ensures SetOf(Ids(msgs[..i])) <= SetOf(Ids(msgs))
  {
    forall id | id in Ids(msgs[..i]) ensures id in Ids(msgs) {
      var k :| 0 <= k < i && Ids(msgs[..i])[k] == id;
      assert Ids(msgs)[k] == id;
    }
  }

  /** A panic while a delivery is decoded. */
  lemma LedgerDecodePanic(msgs: seq<Delivery>, i: nat, r0: set<nat>, replied: set<nat>, n: seq<nat>, finished: seq<bool>, origin: seq<nat>, ended: bool)
    requires i < |msgs| && Ledger(msgs, i, r0, replied, n, finished, origin, ended) && msgs[i].id !in replied
    requires r0 !! SetOf(Ids(msgs)) || |msgs| == 1
    ensures RunDone(msgs, false, r0, replied, n, [], ended)
  {
    PrefixIds(msgs, i);
    IdsNext(msgs, i);
    if |msgs| == 1 {
      assert Ids(msgs) == [msgs[0].id];
      assert msgs[..0] == [];
      NoneOf(n);
    }
  }

  /** All deliveries read and no part left: the run returns. */
  lemma LedgerEnd(msgs: seq<Delivery>, r0: set<nat>, replied: set<nat>, n: seq<nat>, finished: seq<bool>, ended: bool)
    requires Ledger(msgs, |msgs|, r0, replied, n, finished, [], ended)
    ensures RunDone(msgs, true, r0, replied - SetOf(Ids(msgs)), n, finished, ended)
  {
    assert msgs[..|msgs|] == msgs;
  }

  // ----- without a panic, a stop or a failing store -----

  lemma ImportAllSnoc(z: Zone, disk: Disk, a: seq<Message>, m: Message)
    ensures ImportAll(z, disk, a + [m]) == ImportStep(z, ImportAll(z, disk, a), m)
  {
    assert (a + [m])[..|a|] == a;
  }

  lemma {:induction false} ImportAllConcat(z: Zone, disk: Disk, a: seq<Message>, b: seq<Message>)
    ensures ImportAll(z, disk, a + b) == ImportAll(z, ImportAll(z, disk, a), b)
    decreases |b|
  {
    if b == [] {
      assert a + b == a;
    } else {
      var init, m := b[..|b| - 1], b[|b| - 1];
      InitLast(b);
      Assoc(a, init, [m]);
      ImportAllConcat(z, disk, a, init);
      ImportAllSnoc(z, disk, a + init, m);
      ImportAllSnoc(z, ImportAll(z, disk, a), init, m);
    }
  }

  /** Stores that read alike still do after the same messages. */
  lemma {:induction false} ImportAllLike(z: Zone, a: Disk, b: Disk, msgs: seq<Message>)
    requires LikeDisk(a, b)
    ensures LikeDisk(ImportAll(z, a, msgs), ImportAll(z, b, msgs))
  {
    if msgs != [] {
      var init, m := msgs[..|msgs| - 1], msgs[|msgs| - 1];
      ImportAllLike(z, a, b, init);
      var a', b' := ImportAll(z, a, init), ImportAll(z, b, init);
      LikeStoreAll(z, DbOf(a', m.ecId), DbOf(b', m.ecId), BlocksOf(z, m));
    }
  }

  lemma LikeDiskTwice(a: Disk, b: Disk, c: Disk)
    requires LikeDisk(a, b) && LikeDisk(b, c)
    ensures LikeDisk(a, c)
  {
    forall e | e in a ensures Like(a[e], c[e]) {
      LikeTwice(a[e], b[e], c[e]);
    }
  }

  /** The deliveries are decoded; if their day blocks lie on one day each, the stores read as after
      importing them one after the other, and hold the same arrays if all blocks are coded. */
  ghost predicate Landed(z: Zone, disk0: Disk, disk: Disk, done: seq<Delivery>) {
    AllDecoded(done) && (AllDaily(z, Messages(done)) ==> SameImport(z, disk, ImportAll(z, disk0, Messages(done)), Messages(done)))
  }

  lemma LandedMore(z: Zone, disk0: Disk, disk: Disk, disk': Disk, done: seq<Delivery>, part: seq<Delivery>)
    requires Landed(z, disk0, disk, done) && Landed(z, disk, disk', part)
    ensures Landed(z, disk0, disk', done + part)
  {
    MessagesConcat(done, part);
    if AllDaily(z, Messages(done + part)) {
      ImportsConcat(z, disk0, disk, disk', Messages(done), Messages(part));
    }
  }

  lemma ImportsConcat(z: Zone, disk0: Disk, disk: Disk, disk': Disk, a: seq<Message>, b: seq<Message>)
    requires AllDaily(z, a + b)
    requires AllDaily(z, a) ==> SameImport(z, disk, ImportAll(z, disk0, a), a)
    requires AllDaily(z, b) ==> SameImport(z, disk', ImportAll(z, disk, b), b)
    ensures SameImport(z, disk', ImportAll(z, disk0, a + b), a + b)
  {
    DailyParts(z, a, b);
    ImportAllConcat(z, disk0, a, b);
    ImportAllLike(z, disk, ImportAll(z, disk0, a), b);
    LikeDiskTwice(disk', ImportAll(z, disk, b), ImportAll(z, disk0, a + b));
    if AllCoded(z, a + b) {
      CodedParts(z, a, b);
    }
  }

  lemma DailyParts(z: Zone, a: seq<Message>, b: seq<Message>)
    requires AllDaily(z, a + b)
    ensures AllDaily(z, a) && AllDaily(z, b)
  {
    assert forall i :: 0 <= i < |a| ==> (a + b)[i] == a[i];
    assert forall i :: 0 <= i < |b| ==> (a + b)[|a| + i] == b[i];
  }

  lemma MessagesConcat(a: seq<Delivery>, b: seq<Delivery>)
    requires AllDecoded(a) && AllDecoded(b)
    ensures AllDecoded(a + b) && Messages(a + b) == Messages(a) + Messages(b)
  {
  }

  lemma IdsConcat(a: seq<Delivery>, b: seq<Delivery>)
    ensures Ids(a + b) == Ids(a) + Ids(b)
  {
  }

  /** The deliveries done are imported and replied in order, and those of origin come next. */
  ghost predicate InOrder(z: Zone, msgs: seq<Delivery>, i: nat, disk0: Disk, disk: Disk, n: seq<nat>, origin: seq<nat>, done: seq<Delivery>) {
    && i <= |msgs| && Increasing(origin, i)
    && Decodable(msgs[..i]) == done + Part(msgs, origin)
    && n == Ids(done)
    && Landed(z, disk0, disk, done)
  }

  lemma DecodableNext(msgs: seq<Delivery>, i: nat)
    requires i < |msgs|
    ensures Decodable(msgs[..i + 1]) == Decodable(msgs[..i]) + if msgs[i].payload.Some? then [msgs[i]] else []
  {
    assert msgs[..i + 1][..i] == msgs[..i];
  }

  lemma PartNext(msgs: seq<Delivery>, origin: seq<nat>, i: nat)
    requires i < |msgs| && Increasing(origin, i)
    ensures Increasing(origin + [i], i + 1)
    ensures Part(msgs, origin + [i]) == Part(msgs, origin) + [msgs[i]]
  {
  }

  lemma InOrderJoin(z: Zone, msgs: seq<Delivery>, i: nat, disk0: Disk, disk: Disk, n: seq<nat>, origin: seq<nat>, done: seq<Delivery>)
    requires i < |msgs| && msgs[i].payload.Some? && InOrder(z, msgs, i, disk0, disk, n, origin, done)
    ensures InOrder(z, msgs, i + 1, disk0, disk, n, origin + [i], done)
  {
    DecodableNext(msgs, i);
    PartNext(msgs, origin, i);
    Assoc(done, Part(msgs, origin), [msgs[i]]);
  }

  lemma InOrderSkip(z: Zone, msgs: seq<Delivery>, i: nat, disk0: Disk, disk: Disk, n: seq<nat>, origin: seq<nat>, done: seq<Delivery>)
    requires i < |msgs| && msgs[i].payload.None? && InOrder(z, msgs, i, disk0, disk, n, origin, done)
    ensures InOrder(z, msgs, i + 1, disk0, disk, n, origin, done)
  {
    DecodableNext(msgs, i);
  }

  lemma InOrderPart(z: Zone, msgs: seq<Delivery>, i: nat, disk0: Disk, disk: Disk, n: seq<nat>, origin: seq<nat>, done: seq<Delivery>, disk': Disk)
    requires InOrder(z, msgs, i, disk0, disk, n, origin, done) && Landed(z, disk, disk', Part(msgs, origin))
    ensures InOrder(z, msgs, i, disk0, disk', n + Ids(Part(msgs, origin)), [], done + Part(msgs, origin))
  {
    var part := Part(msgs, origin);
    assert Part(msgs, []) == [];
    IdsConcat(done, part);
    LandedMore(z, disk0, disk, disk', done, part);
    assert done + part + [] == done + part;
  }

  lemma CodedParts(z: Zone, a: seq<Message>, b: seq<Message>)
    requires AllCoded(z, a + b)
    ensures AllCoded(z, a) && AllCoded(z, b)
  {
    assert forall i :: 0 <= i < |a| ==> (a + b)[i] == a[i];
    assert forall i :: 0 <= i < |b| ==> (a + b)[|a| + i] == b[i];
  }

  // ----- messages without a reply -----

  /** Later histories: they grow, with no more refusals than faults. */
  ghost predicate Later(logs0: Logs, logs: Logs, faults: int) {
    0 <= faults && forall e :: LogOf(logs0, e) <= LogOf(logs, e) && Refusals(LogOf(logs, e)[|LogOf(logs0, e)|..]) <= faults
  }

  lemma LaterTwice(a: Logs, b: Logs, c: Logs, faults: int, faults': int)
    requires Later(a, b, faults) && Later(b, c, faults')
    ensures Later(a, c, faults + faults') && LogsGrow(a, c)
  {
    forall e ensures LogOf(a, e) <= LogOf(c, e) && Refusals(LogOf(c, e)[|LogOf(a, e)|..]) <= faults + faults' {
      var x, y, v := LogOf(a, e), LogOf(b, e), LogOf(c, e);
      assert x <= y && y <= v;
      assert v[|x|..] == y[|x|..] + v[|y|..];
      RefusalsConcat(y[|x|..], v[|y|..]);
    }
  }

  lemma LaterSame(logs: Logs)
    ensures Later(logs, logs, 0)
  {
    forall e ensures Refusals(LogOf(logs, e)[|LogOf(logs, e)|..]) == 0 {
      assert LogOf(logs, e)[|LogOf(logs, e)|..] == [];
    }
  }

  lemma LaterUnchanged(logs0: Logs, logs: Logs)
    requires SameLogs(logs0, logs)
    ensures Later(logs0, logs, 0)
  {
    forall e ensures LogOf(logs0, e) <= LogOf(logs, e) && Refusals(LogOf(logs, e)[|LogOf(logs0, e)|..]) == 0 {
      assert LogOf(logs, e)[|LogOf(logs0, e)|..] == [];
    }
  }

  ghost predicate ExcusedIn(log: seq<Attempt>, bs: seq<Block>) {
    Unopened in log || exists b :: b in bs && RefusedIn(log, b)
  }

  /** Since then a single store refused a block of the message, or its store could not be opened. */
  ghost predicate Excused(z: Zone, logs0: Logs, logs: Logs, d: Delivery) {
    d.payload.Some? && (
      var m := d.payload.value.message;
      LogOf(logs0, m.ecId) <= LogOf(logs, m.ecId) && ExcusedIn(LogOf(logs, m.ecId)[|LogOf(logs0, m.ecId)|..], BlocksOf(z, m)))
  }

  lemma ExcusedWithin(log: seq<Attempt>, log': seq<Attempt>, bs: seq<Block>)
    requires ExcusedIn(log, bs) && Within(log, log')
    ensures ExcusedIn(log', bs)
  {
    if Unopened !in log {
      var b :| b in bs && RefusedIn(log, b);
      var err :| Refused(b.point, b.energy, err) in log;
      assert Refused(b.point, b.energy, err) in log';
    }
  }

  /** An excuse counts for longer times too. */
  lemma ExcusedLater(z: Zone, base: Logs, logs0: Logs, logs: Logs, logs': Logs, d: Delivery)
    requires Excused(z, logs0, logs, d) && LogsGrow(base, logs0) && LogsGrow(logs, logs')
    ensures Excused(z, base, logs', d)
  {
    var e := d.payload.value.message.ecId;
    var a, b, c, f := LogOf(base, e), LogOf(logs0, e), LogOf(logs, e), LogOf(logs', e);
    assert a <= b && b <= c && c <= f;
    forall x | x in c[|b|..] ensures x in f[|a|..] {
      var i :| 0 <= i < |c[|b|..]| && c[|b|..][i] == x;
      assert f[|a|..][|b| - |a| + i] == x;
    }
    ExcusedWithin(c[|b|..], f[|a|..], BlocksOf(z, d.payload.value.message));
  }

  /** Every decodable message before i that does not wait is replied, was replied, is excused, or the
      context ended. */
  ghost predicate Handled(z: Zone, msgs: seq<Delivery>, i: nat, r0: set<nat>, n: seq<nat>, origin: seq<nat>, ended: bool, base: Logs, logs: Logs) {
    i <= |msgs| && forall k :: 0 <= k < i && k !in origin ==> HandledOne(z, msgs[k], r0, n, ended, base, logs)
  }

  ghost predicate HandledOne(z: Zone, d: Delivery, r0: set<nat>, n: seq<nat>, ended: bool, base: Logs, logs: Logs) {
    d.payload.Some? ==> d.id in n || d.id in r0 || ended || Excused(z, base, logs, d)
  }

  lemma HandledNext(z: Zone, msgs: seq<Delivery>, i: nat, r0: set<nat>, n: seq<nat>, origin: seq<nat>, ended: bool, ended': bool, base: Logs, logs: Logs)
    requires i < |msgs| && Handled(z, msgs, i, r0, n, origin, ended, base, logs) && (ended ==> ended')
    requires msgs[i].payload.Some? ==> msgs[i].id in n || msgs[i].id in r0 || ended'
    ensures Handled(z, msgs, i + 1, r0, n, origin, ended', base, logs)
  {
    forall k | 0 <= k < i + 1 && k !in origin ensures HandledOne(z, msgs[k], r0, n, ended', base, logs) {
      assert k < i ==> HandledOne(z, msgs[k], r0, n, ended, base, logs);
    }
  }

  lemma HandledJoin(z: Zone, msgs: seq<Delivery>, i: nat, r0: set<nat>, n: seq<nat>, origin: seq<nat>, ended: bool, ended': bool, base: Logs, logs: Logs)
    requires i < |msgs| && Handled(z, msgs, i, r0, n, origin, ended, base, logs) && (ended ==> ended')
    ensures Handled(z, msgs, i + 1, r0, n, origin + [i], ended', base, logs)
  {
    forall k | 0 <= k < i + 1 && k !in origin + [i] ensures HandledOne(z, msgs[k], r0, n, ended', base, logs) {
      assert k != i ==> HandledOne(z, msgs[k], r0, n, ended, base, logs);
    }
  }

  /** An outcome that is neither stored nor stopped excuses the message. */
  lemma VerdictExcuses(z: Zone, out: Outcome, d: Delivery, logs0: Logs, logs: Logs, ended: bool)
    requires d.payload.Some? && MessageVerdict(z, out, d.payload.value.message, logs0, logs, ended) && out != Ok && out != Stopped
    ensures Excused(z, logs0, logs, d)
  {
    var m := d.payload.value.message;
    var log := LogOf(logs, m.ecId)[|LogOf(logs0, m.ecId)|..];
    if out.Failed? {
      var l := out.errors.listed[0];
      assert l in out.errors.listed;
      assert RefusedOne(BlocksOf(z, m), l, log);
      var b :| b in BlocksOf(z, m) && b.energy == l.0 && Refused(b.point, b.energy, l.1) in log;
      assert RefusedIn(log, b);
    }
  }

  /** The messages of a part after its import. */
  lemma HandledPart(z: Zone, msgs: seq<Delivery>, i: nat, r0: set<nat>, n: seq<nat>, origin: seq<nat>, ended: bool, errs: seq<Outcome>, ended': bool, base: Logs, logs: Logs, logs': Logs)
    requires Handled(z, msgs, i, r0, n, origin, ended, base, logs) && (ended ==> ended') && DistinctIds(msgs) && Increasing(origin, i) && AllDecoded(Part(msgs, origin))
    requires LogsGrow(base, logs) && LogsGrow(logs, logs') && PartVerdicts(z, logs, logs', Messages(Part(msgs, origin)), errs, ended')
    ensures Handled(z, msgs, i, r0, n + Replies(Part(msgs, origin), errs), [], ended', base, logs')
  {
    var part := Part(msgs, origin);
    var m := Replies(part, errs);
    PartDistinct(msgs, origin);
    forall k | 0 <= k < i ensures HandledOne(z, msgs[k], r0, n + m, ended', base, logs') {
      if k in origin {
        var t :| 0 <= t < |origin| && origin[t] == k;
        assert part[t] == msgs[k] && part[t].payload.Some?;
        assert MessageVerdict(z, errs[t], Messages(part)[t], logs, logs', ended');
        if errs[t] == Ok {
          RepliesWithin(part, errs, msgs[k].id);
        } else if errs[t] != Stopped {
          VerdictExcuses(z, errs[t], msgs[k], logs, logs', ended');
          ExcusedLater(z, base, logs, logs', logs', msgs[k]);
        }
      } else {
        assert HandledOne(z, msgs[k], r0, n, ended, base, logs);
        if msgs[k].payload.Some? && Excused(z, base, logs, msgs[k]) {
          ExcusedLater(z, base, base, logs, logs', msgs[k]);
        }
      }
    }
  }

  /** The decodable messages of the first i without a reply and without an excuse. */
  ghost function Unserved(z: Zone, msgs: seq<Delivery>, i: nat, n: seq<nat>, base: Logs, logs: Logs): set<nat>
    requires i <= |msgs|
  {
    set k | 0 <= k < i && msgs[k].payload.Some? && msgs[k].id !in n && !Excused(z, base, logs, msgs[k])
  }

  /** A batch that panics loses no message for that, a message on its own does. */
  function Losses(messages: nat, panics: int): int {
    if panics == 0 then 0 else if messages == 1 then 1 else panics - 1
  }

  lemma HandledAll(z: Zone, msgs: seq<Delivery>, r0: set<nat>, n: seq<nat>, ended: bool, base: Logs, logs: Logs)
    requires Handled(z, msgs, |msgs|, r0, n, [], ended, base, logs) && r0 !! SetOf(Ids(msgs))
    ensures ended || Unserved(z, msgs, |msgs|, n, base, logs) == {}
  {
    forall k | 0 <= k < |msgs| ensures ended || k !in Unserved(z, msgs, |msgs|, n, base, logs) {
      assert HandledOne(z, msgs[k], r0, n, ended, base, logs);
      assert Ids(msgs)[k] == msgs[k].id;
    }
  }

  lemma UnservedFew(z: Zone, msgs: seq<Delivery>, n: seq<nat>, base: Logs, logs: Logs)
    requires |msgs| == 1
    ensures |Unserved(z, msgs, 1, n, base, logs)| <= 1
  {
    SubsetSize(Unserved(z, msgs, 1, n, base, logs), {0});
  }

  /** One message of the rerun: it is served, or it panics. */
  lemma UnservedNext(z: Zone, msgs: seq<Delivery>, i: nat, r0: set<nat>, r: set<nat>, n: seq<nat>, finished: seq<bool>, ended: bool, ok: bool, m: seq<nat>, ended': bool,
                     base: Logs, logs: Logs, logs': Logs)
    requires i < |msgs| && Rerun(msgs, i, r0, r, n, finished, ended) && LogsGrow(base, logs) && LogsGrow(logs, logs')
    requires ok ==> Handled(z, [msgs[i]], 1, r, m, [], ended', logs, logs')
    ensures ended' || |Unserved(z, msgs, i + 1, n + m, base, logs')| <= |Unserved(z, msgs, i, n, base, logs)| + if ok then 0 else 1
  {
    var before, after := Unserved(z, msgs, i, n, base, logs), Unserved(z, msgs, i + 1, n + m, base, logs');
    forall k | k in after && k < i ensures k in before {
      if Excused(z, base, logs, msgs[k]) {
        ExcusedLater(z, base, base, logs, logs', msgs[k]);
      }
    }
    if ok && !ended' {
      OneServed(z, msgs, i, r0, r, n, finished, ended, m, base, logs, logs');
    }
    SubsetSize(after, if ok && !ended' then before else before + {i});
  }

  lemma OneServed(z: Zone, msgs: seq<Delivery>, i: nat, r0: set<nat>, r: set<nat>, n: seq<nat>, finished: seq<bool>, ended: bool, m: seq<nat>, base: Logs, logs: Logs, logs': Logs)
    requires i < |msgs| && Rerun(msgs, i, r0, r, n, finished, ended) && LogsGrow(base, logs) && LogsGrow(logs, logs')
    requires Handled(z, [msgs[i]], 1, r, m, [], false, logs, logs')
    ensures i !in Unserved(z, msgs, i + 1, n + m, base, logs')
  {
    assert HandledOne(z, [msgs[i]][0], r, m, false, logs, logs');
    assert Ids(msgs)[i] == msgs[i].id;
    if Excused(z, logs, logs', msgs[i]) {
      ExcusedLater(z, base, logs, logs', logs', msgs[i]);
    }
  }

  ghost predicate AllReplied(msgs: seq<Delivery>, n: seq<nat>) {
    forall k :: 0 <= k < |msgs| && msgs[k].payload.Some? ==> msgs[k].id in n
  }

  /** Without a fault nothing is excused. */
  lemma CalmReplied(z: Zone, msgs: seq<Delivery>, n: seq<nat>, logs0: Logs, logs: Logs)
    requires Later(logs0, logs, 0) && |Unserved(z, msgs, |msgs|, n, logs0, logs)| == 0
    ensures AllReplied(msgs, n)
  {
    forall k | 0 <= k < |msgs| && msgs[k].payload.Some? ensures msgs[k].id in n {
      assert k !in Unserved(z, msgs, |msgs|, n, logs0, logs);
      var e := msgs[k].payload.value.message.ecId;
      NoRefusals(LogOf(logs, e)[|LogOf(logs0, e)|..]);
    }
  }

  // ----- the executor -----

  /** The broker's side: replies sent and messages acked so far. */
  class Broker {
    var replies: seq<nat>
    var acks: seq<nat>

    constructor ()
      ensures replies == [] && acks == []
    {
      replies, acks := [], [];
    }

    /** At most one reply and one ack each, and a replied message is acked. */
    ghost predicate Sound()
      reads this
    {
      NoDup(replies) && NoDup(acks) && SetOf(replies) <= SetOf(acks)
    }
  }

  class TenantExecutor {
    const importer: TenantEnergyImporter
    const broker: Broker
    const budget: int
    var replied: set<nat>
    var panics: nat         // panics so far

    constructor (importer: TenantEnergyImporter, broker: Broker, budget: int)
      ensures this.importer == importer && this.broker == broker && replied == {} && panics == 0
    {
      this.importer, this.broker, this.budget := importer, broker, budget;
      replied, panics := {}, 0;
    }

    /** A panic comes or not. */
    method Panics() returns (r: bool)
      modifies this`panics
      ensures panics == old(panics) + if r then 1 else 0
      ensures importer.Content() == old(importer.Content()) && importer.Log() == old(importer.Log())
    {
      r := *;
      if r {
        panics := panics + 1;
      }
    }

    /** The context has ended. */
    method Ended(w: Context) returns (r: bool)
      modifies w`ended
      ensures r == w.ended && (old(w.ended) ==> r)
      ensures importer.Content() == old(importer.Content()) && importer.Log() == old(importer.Log())
    {
      r := w.Ended();
    }

    /** The replies m were sent and noted. */
    ghost predicate RepliedTo(m: seq<nat>, n0: seq<nat>, r0: set<nat>)
      reads this, broker
    {
      broker.replies == n0 + m && replied == r0 + SetOf(m)
    }

    /** Send a reply and note it. */
    method Reply(id: nat, ghost part: seq<Delivery>, ghost errs: seq<Outcome>, ghost n0: seq<nat>, ghost r0: set<nat>)
      requires |errs| == |part| && RepliedTo(Replies(part, errs), n0, r0)
      modifies this`replied, broker`replies
      ensures RepliedTo(Replies(part, errs) + [id], n0, r0)
    {
      broker.replies := broker.replies + [id];
      replied := replied + {id};
    }

    /** importPart after the import: every message that is not stopped is finished, and the stored ones
        are replied in order. A panic can come before each reply. */
    method ReplyPart(msgs: seq<Delivery>, origin: seq<nat>, errs: seq<Outcome>, finished: seq<bool>)
      returns (ok: bool, finished': seq<bool>, ghost j: nat)
      requires Increasing(origin, |msgs|) && |errs| == |origin| && |finished| == |msgs|
      modifies this`replied, this`panics, broker`replies
      ensures panics == old(panics) + if ok then 0 else 1
      ensures importer.Content() == old(importer.Content()) && importer.Log() == old(importer.Log())
      ensures j <= |origin| && (ok <==> j == |origin|)
      ensures RepliedTo(Replies(Part(msgs, origin)[..j], errs[..j]), old(broker.replies), old(replied))
      ensures ok ==> PartFinished(origin, errs, finished, finished')
    {
      ok, finished', j := ReplyEach(msgs, origin, errs, finished);
    }

    method ReplyEach(msgs: seq<Delivery>, origin: seq<nat>, errs: seq<Outcome>, finished: seq<bool>)
      returns (ok: bool, finished': seq<bool>, ghost j: nat)
      requires Increasing(origin, |msgs|) && |errs| == |origin| && |finished| == |msgs|
      modifies this`replied, this`panics, broker`replies
      ensures panics == old(panics) + if ok then 0 else 1
      ensures j <= |origin| && (ok <==> j == |origin|)
      ensures RepliedTo(Replies(Part(msgs, origin)[..j], errs[..j]), old(broker.replies), old(replied))
      ensures ok ==> PartFinished(origin, errs, finished, finished')
    {
      ok, finished', j := true, finished, |origin|;
      ghost var part := Part(msgs, origin);
      for t := 0 to |origin|
        invariant |finished'| == |finished| && panics == old(panics)
        invariant RepliedTo(Replies(part[..t], errs[..t]), old(broker.replies), old(replied))
        invariant forall k :: 0 <= k < |finished| && k !in origin ==> finished'[k] == finished[k]
        invariant forall s :: 0 <= s < t && errs[s] != Stopped ==> finished'[origin[s]]
      {
        RepliesNext(part, errs, t);
        if errs[t] != Stopped {
          finished' := finished'[origin[t] := true];
          if errs[t] == Ok {
            var panicked := Panics();
            if panicked {
              ok, j := false, t;
              return;
            }
            Reply(msgs[origin[t]].id, part[..t], errs[..t], old(broker.replies), old(replied));
          }
        }
      }
      assert part[..|part|] == part && errs[..|errs|] == errs;
    }

    /** importPart, when the import itself does not panic: the stored messages are replied. */
    method ImportPart(w: Context, msgs: seq<Delivery>, data: seq<Message>, origin: seq<nat>, finished: seq<bool>)
      returns (ok: bool, finished': seq<bool>, ghost errs: seq<Outcome>, ghost j: nat)
      requires importer.Valid() && Increasing(origin, |msgs|) && |finished| == |msgs| && DistinctIds(msgs)
      requires AllDecoded(Part(msgs, origin)) && data == Messages(Part(msgs, origin)) && origin != []
      modifies w, this`replied, this`panics, broker`replies, importer`stores, importer`marks, importer.Repr()
      ensures panics == old(panics) + if ok then 0 else 1
      ensures importer.Valid() && fresh(importer.Repr() - old(importer.Repr()))
      ensures old(w.ended) ==> w.ended
      ensures Later(old(importer.Log()), importer.Log(), w.faults - old(w.faults))
      ensures |errs| == |origin| && j <= |origin| && (ok <==> j == |origin|)
      ensures RepliedTo(Replies(Part(msgs, origin)[..j], errs[..j]), old(broker.replies), old(replied))
      ensures Sent(importer.z, importer.Log(), msgs, Replies(Part(msgs, origin)[..j], errs[..j]))
      ensures ok ==> PartFinished(origin, errs, finished, finished')
      ensures PartVerdicts(importer.z, old(importer.Log()), importer.Log(), data, errs, w.ended)
      ensures ok && w.faults == old(w.faults) && !w.ended ==> AllStored(errs) && Landed(importer.z, old(importer.Content()), importer.Content(), Part(msgs, origin))
    {
      var outs := ImportData(w, data, Part(msgs, origin));
      errs := outs;
      ok, finished', j := ReplyPart(msgs, origin, outs, finished);
      PartSent(importer.z, old(importer.Log()), importer.Log(), msgs, origin, errs, j, w.ended);
    }

    method ImportData(w: Context, data: seq<Message>, ghost part: seq<Delivery>) returns (outs: seq<Outcome>)
      requires importer.Valid() && AllDecoded(part) && data == Messages(part)
      modifies w, importer`stores, importer`marks, importer.Repr()
      ensures importer.Valid() && fresh(importer.Repr() - old(importer.Repr()))
      ensures old(w.ended) ==> w.ended
      ensures Later(old(importer.Log()), importer.Log(), w.faults - old(w.faults))
      ensures PartVerdicts(importer.z, old(importer.Log()), importer.Log(), data, outs, w.ended)
      ensures w.faults == old(w.faults) && !w.ended ==> AllStored(outs) && Landed(importer.z, old(importer.Content()), importer.Content(), part)
    {
      outs := importer.ImportBatch(w, data);
    }

    /** The replies of the run that began with the replies n0. */
    ghost function Since(n0: seq<nat>): seq<nat>
      reads broker
      requires n0 <= broker.replies
    {
      broker.replies[|n0|..]
    }

    ghost predicate At(w: Context, msgs: seq<Delivery>, i: nat, data: seq<Message>, origin: seq<nat>, finished: seq<bool>, r0: set<nat>, n0: seq<nat>, logs0: Logs)
      reads this, broker, w, importer, importer.Repr()
    {
      && importer.Valid() && n0 <= broker.replies && LogsGrow(logs0, importer.Log())
      && Stands(importer.z, msgs, i, r0, replied, Since(n0), finished, origin, w.ended, data, importer.Log(), logs0)
    }

    /** After a panic: the rerun knows what was replied. */
    ghost predicate Panicked(w: Context, msgs: seq<Delivery>, r0: set<nat>, n0: seq<nat>)
      reads this, broker, w, importer, importer.Repr()
    {
      && importer.Valid() && n0 <= broker.replies
      && RunDone(msgs, false, r0, replied, Since(n0), [], w.ended)
      && Sent(importer.z, importer.Log(), msgs, Since(n0))
    }

    /** A panic inside the import of a part: nothing of it is replied. */
    method PanicPart(w: Context, msgs: seq<Delivery>, ghost i: nat, data: seq<Message>, origin: seq<nat>, finished: seq<bool>, ghost r0: set<nat>, ghost n0: seq<nat>, ghost logs0: Logs)
      requires At(w, msgs, i, data, origin, finished, r0, n0, logs0) && origin != []
      modifies importer`stores, importer`marks, importer.Repr()
      ensures fresh(importer.Repr() - old(importer.Repr())) && SameLogs(old(importer.Log()), importer.Log()) && Panicked(w, msgs, r0, n0)
    {
      ghost var errs, logs, n := seq(|origin|, _ => NotOpened), importer.Log(), Since(n0);
      assert Replies(Part(msgs, origin)[..0], errs[..0]) == [];
      importer.Interrupt(data);
      assert Since(n0) == n;
      StandsPanic(importer.z, msgs, i, r0, replied, n, finished, origin, w.ended, data, logs, errs, 0, importer.Log(), logs0);
      assert n + [] == n && replied + SetOf([]) == replied;
    }

    /** Import the current part; a panic leaves any rows. */
    method FlushPart(w: Context, msgs: seq<Delivery>, ghost i: nat, data: seq<Message>, origin: seq<nat>, finished: seq<bool>,
                     ghost r0: set<nat>, ghost n0: seq<nat>, ghost logs0: Logs, ghost disk0: Disk, ghost done: seq<Delivery>)
      returns (ok: bool, finished': seq<bool>)
      requires At(w, msgs, i, data, origin, finished, r0, n0, logs0) && origin != []
      modifies w, this`replied, this`panics, broker`replies, importer`stores, importer`marks, importer.Repr()
      ensures panics == old(panics) + if ok then 0 else 1
      ensures fresh(importer.Repr() - old(importer.Repr()))
      ensures old(w.ended) ==> w.ended
      ensures Later(old(importer.Log()), importer.Log(), w.faults - old(w.faults))
      ensures ok ==> At(w, msgs, i, [], [], finished', r0, n0, logs0)
      ensures !ok ==> Panicked(w, msgs, r0, n0)
      ensures ok && w.faults == old(w.faults) && !w.ended && InOrder(importer.z, msgs, i, disk0, old(importer.Content()), old(Since(n0)), origin, done) ==> InOrder(importer.z, msgs, i, disk0, importer.Content(), Since(n0), [], done + Part(msgs, origin))
    {
      var panicked := Panics();
      if panicked {
        PanicPart(w, msgs, i, data, origin, finished, r0, n0, logs0);
        LaterUnchanged(old(importer.Log()), importer.Log());
        return false, finished;
      }
      ok, finished' := StorePart(w, msgs, i, data, origin, finished, r0, n0, logs0, disk0, done);
    }

    method StorePart(w: Context, msgs: seq<Delivery>, ghost i: nat, data: seq<Message>, origin: seq<nat>, finished: seq<bool>,
                     ghost r0: set<nat>, ghost n0: seq<nat>, ghost logs0: Logs, ghost disk0: Disk, ghost done: seq<Delivery>)
      returns (ok: bool, finished': seq<bool>)
      requires At(w, msgs, i, data, origin, finished, r0, n0, logs0) && origin != []
      modifies w, this`replied, this`panics, broker`replies, importer`stores, importer`marks, importer.Repr()
      ensures panics == old(panics) + if ok then 0 else 1
      ensures fresh(importer.Repr() - old(importer.Repr()))
      ensures old(w.ended) ==> w.ended
      ensures Later(old(importer.Log()), importer.Log(), w.faults - old(w.faults))
      ensures ok ==> At(w, msgs, i, [], [], finished', r0, n0, logs0)
      ensures !ok ==> Panicked(w, msgs, r0, n0)
      ensures ok && w.faults == old(w.faults) && !w.ended && InOrder(importer.z, msgs, i, disk0, old(importer.Content()), old(Since(n0)), origin, done) ==> InOrder(importer.z, msgs, i, disk0, importer.Content(), Since(n0), [], done + Part(msgs, origin))
    {
      ghost var n, r, ended, logs, disk := Since(n0), replied, w.ended, importer.Log(), importer.Content();
      ghost var errs, j;
      ok, finished', errs, j := ImportPart(w, msgs, data, origin, finished);
      ghost var part := Part(msgs, origin);
      SuffixConcat(n0, old(broker.replies), Replies(part[..j], errs[..j]));
      if ok {
        assert part[..|part|] == part && errs[..|errs|] == errs;
        StandsPart(importer.z, msgs, i, r0, r, n, finished, origin, ended, data, logs, errs, finished', w.ended, importer.Log(), logs0);
        LogsGrowTwice(logs0, logs, importer.Log());
        if w.faults == old(w.faults) && !w.ended && InOrder(importer.z, msgs, i, disk0, disk, n, origin, done) {
          RepliesAll(part, errs);
          InOrderPart(importer.z, msgs, i, disk0, disk, n, origin, done, importer.Content());
        }
      } else {
        StandsPanic(importer.z, msgs, i, r0, r, n, finished, origin, ended, data, logs, errs, j, importer.Log(), logs0);
      }
    }

    /** One delivery of executeParts: replied before, stopped, not decodable, or part of the current part. */
    method NextDelivery(w: Context, msgs: seq<Delivery>, i: nat, data: seq<Message>, origin: seq<nat>, size: nat, finished: seq<bool>,
                        ghost r0: set<nat>, ghost n0: seq<nat>, ghost logs0: Logs, ghost disk0: Disk, ghost done: seq<Delivery>)
      returns (ok: bool, data': seq<Message>, origin': seq<nat>, size': nat, finished': seq<bool>, ghost done': seq<Delivery>)
      requires i < |msgs| && At(w, msgs, i, data, origin, finished, r0, n0, logs0)
      modifies w, this`replied, this`panics, broker`replies, importer`stores, importer`marks, importer.Repr()
      ensures panics == old(panics) + if ok then 0 else 1
      ensures fresh(importer.Repr() - old(importer.Repr()))
      ensures old(w.ended) ==> w.ended
      ensures Later(old(importer.Log()), importer.Log(), w.faults - old(w.faults))
      ensures ok ==> At(w, msgs, i + 1, data', origin', finished', r0, n0, logs0)
      ensures !ok ==> Panicked(w, msgs, r0, n0)
      ensures ok && w.faults == old(w.faults) && !w.ended && r0 !! SetOf(Ids(msgs)) && InOrder(importer.z, msgs, i, disk0, old(importer.Content()), old(Since(n0)), origin, done) ==> InOrder(importer.z, msgs, i + 1, disk0, importer.Content(), Since(n0), origin', done')
    {
      ok, data', origin', size', finished', done' := true, data, origin, size, finished, done;
      if msgs[i].id in replied {
        ghost var n, logs := Since(n0), importer.Log();
        StandsReplied(importer.z, msgs, i, r0, replied, n, finished, origin, w.ended, data, logs, logs0);
        LaterSame(logs);
        replied := replied - {msgs[i].id};
        finished' := finished[i := true];
        assert Since(n0) == n && importer.Log() == logs;
        return;
      }
      ok, data', origin', size', finished', done' := NewDelivery(w, msgs, i, data, origin, size, finished, r0, n0, logs0, disk0, done);
    }

    /** A delivery not replied before. */
    method NewDelivery(w: Context, msgs: seq<Delivery>, i: nat, data: seq<Message>, origin: seq<nat>, size: nat, finished: seq<bool>,
                       ghost r0: set<nat>, ghost n0: seq<nat>, ghost logs0: Logs, ghost disk0: Disk, ghost done: seq<Delivery>)
      returns (ok: bool, data': seq<Message>, origin': seq<nat>, size': nat, finished': seq<bool>, ghost done': seq<Delivery>)
      requires i < |msgs| && msgs[i].id !in replied && At(w, msgs, i, data, origin, finished, r0, n0, logs0)
      modifies w, this`replied, this`panics, broker`replies, importer`stores, importer`marks, importer.Repr()
      ensures panics == old(panics) + if ok then 0 else 1
      ensures fresh(importer.Repr() - old(importer.Repr()))
      ensures old(w.ended) ==> w.ended
      ensures Later(old(importer.Log()), importer.Log(), w.faults - old(w.faults))
      ensures ok ==> At(w, msgs, i + 1, data', origin', finished', r0, n0, logs0)
      ensures !ok ==> Panicked(w, msgs, r0, n0)
      ensures ok && w.faults == old(w.faults) && !w.ended && r0 !! SetOf(Ids(msgs)) && InOrder(importer.z, msgs, i, disk0, old(importer.Content()), old(Since(n0)), origin, done) ==> InOrder(importer.z, msgs, i + 1, disk0, importer.Content(), Since(n0), origin', done')
    {
      ok, data', origin', size', finished', done' := true, data, origin, size, finished, done;
      ghost var z, disk, n, logs, ended0 := importer.z, importer.Content(), Since(n0), importer.Log(), w.ended;
      var ended := Ended(w);
      LaterSame(logs);
      if ended {
        StandsSkip(z, msgs, i, r0, replied, n, finished, origin, ended0, data, logs, logs0, finished, true);
        return;
      }
      var panicked := Panics();
      if panicked {
        LedgerDecodePanic(msgs, i, r0, replied, n, finished, origin, ended0);
        ok := false;
        return;
      }
      if msgs[i].payload.None? {
        finished' := finished[i := true];
        StandsSkip(z, msgs, i, r0, replied, n, finished, origin, ended0, data, logs, logs0, finished', w.ended);
        if InOrder(z, msgs, i, disk0, disk, n, origin, done) {
          InOrderSkip(z, msgs, i, disk0, disk, n, origin, done);
        }
        return;
      }
      ok, data', origin', size', finished', done' := JoinPart(w, msgs, i, data, origin, size, finished, r0, n0, logs0, disk0, done);
    }

    /** A decoded delivery joins the part, which is imported once it is large enough. */
    method JoinPart(w: Context, msgs: seq<Delivery>, i: nat, data: seq<Message>, origin: seq<nat>, size: nat, finished: seq<bool>,
                    ghost r0: set<nat>, ghost n0: seq<nat>, ghost logs0: Logs, ghost disk0: Disk, ghost done: seq<Delivery>)
      returns (ok: bool, data': seq<Message>, origin': seq<nat>, size': nat, finished': seq<bool>, ghost done': seq<Delivery>)
      requires i < |msgs| && At(w, msgs, i, data, origin, finished, r0, n0, logs0)
      requires msgs[i].payload.Some? && msgs[i].id !in replied
      modifies w, this`replied, this`panics, broker`replies, importer`stores, importer`marks, importer.Repr()
      ensures panics == old(panics) + if ok then 0 else 1
      ensures fresh(importer.Repr() - old(importer.Repr()))
      ensures old(w.ended) ==> w.ended
      ensures Later(old(importer.Log()), importer.Log(), w.faults - old(w.faults))
      ensures ok ==> At(w, msgs, i + 1, data', origin', finished', r0, n0, logs0)
      ensures !ok ==> Panicked(w, msgs, r0, n0)
      ensures ok && w.faults == old(w.faults) && !w.ended && r0 !! SetOf(Ids(msgs)) && InOrder(importer.z, msgs, i, disk0, old(importer.Content()), old(Since(n0)), origin, done) ==> InOrder(importer.z, msgs, i + 1, disk0, importer.Content(), Since(n0), origin', done')
    {
      ok, finished', done' := true, finished, done;
      ghost var z, disk, n := importer.z, importer.Content(), Since(n0);
      StandsJoin(z, msgs, i, r0, replied, n, finished, origin, w.ended, data, importer.Log(), w.ended, logs0);
      LaterSame(importer.Log());
      if InOrder(z, msgs, i, disk0, disk, n, origin, done) {
        InOrderJoin(z, msgs, i, disk0, disk, n, origin, done);
      }
      var d := msgs[i].payload.value;
      data', origin', size' := data + [d.message], origin + [i], size + d.size;
      if size' >= budget {
        done' := done + Part(msgs, origin');
        ok, finished' := FlushPart(w, msgs, i + 1, data', origin', finished, r0, n0, logs0, disk0, done);
        data', origin', size' := [], [], 0;
      }
    }

    /** Since the start, where faults0 had failed: without fault and stop the messages before i are handled in order. */
    ghost predicate Orderly(w: Context, faults0: nat, msgs: seq<Delivery>, i: nat, r0: set<nat>, n0: seq<nat>, disk0: Disk,
                            origin: seq<nat>, done: seq<Delivery>, logs0: Logs)
      reads this, broker, w, importer, importer.Repr()
    {
      n0 <= broker.replies && OrderSo(importer.z, msgs, i, r0, disk0, importer.Content(), Since(n0), origin, done, logs0, importer.Log(), w.ended, w.faults - faults0)
    }

    /** A delivery, on top of those before. */
    method ReadNext(w: Context, msgs: seq<Delivery>, i: nat, data: seq<Message>, origin: seq<nat>, size: nat, finished: seq<bool>,
                    ghost r0: set<nat>, ghost n0: seq<nat>, ghost logs0: Logs, ghost disk0: Disk, ghost done: seq<Delivery>, ghost faults0: nat)
      returns (ok: bool, data': seq<Message>, origin': seq<nat>, size': nat, finished': seq<bool>, ghost done': seq<Delivery>)
      requires i < |msgs| && At(w, msgs, i, data, origin, finished, r0, n0, logs0) && Orderly(w, faults0, msgs, i, r0, n0, disk0, origin, done, logs0)
      modifies w, this`replied, this`panics, broker`replies, importer`stores, importer`marks, importer.Repr()
      ensures panics == old(panics) + if ok then 0 else 1
      ensures fresh(importer.Repr() - old(importer.Repr()))
      ensures old(w.ended) ==> w.ended
      ensures Later(logs0, importer.Log(), w.faults - faults0)
      ensures ok ==> At(w, msgs, i + 1, data', origin', finished', r0, n0, logs0) && Orderly(w, faults0, msgs, i + 1, r0, n0, disk0, origin', done', logs0)
      ensures !ok ==> Panicked(w, msgs, r0, n0)
    {
      ghost var logs, faults := importer.Log(), w.faults;
      ok, data', origin', size', finished', done' := NextDelivery(w, msgs, i, data, origin, size, finished, r0, n0, logs0, disk0, done);
      LaterTwice(logs0, logs, importer.Log(), faults - faults0, w.faults - faults);
    }

    /** Before the first delivery. */
    lemma BeforeFirst(w: Context, msgs: seq<Delivery>, finished: seq<bool>, r0: set<nat>, n0: seq<nat>, logs0: Logs, disk0: Disk)
      requires importer.Valid() && DistinctIds(msgs) && |finished| == |msgs|
      requires replied !! SetOf(Ids(msgs)) || |msgs| == 1
      requires r0 == replied && n0 == broker.replies && logs0 == importer.Log() && disk0 == importer.Content()
      ensures At(w, msgs, 0, [], [], finished, r0, n0, logs0)
      ensures Orderly(w, w.faults, msgs, 0, r0, n0, disk0, [], [], logs0)
    {
      Start(importer.z, msgs, r0, finished, w.ended, importer.Log(), disk0);
      LaterSame(logs0);
      assert Since(n0) == [];
    }

    /** The loop of executeParts. */
    method ReadDeliveries(w: Context, msgs: seq<Delivery>, ghost r0: set<nat>, ghost n0: seq<nat>, ghost logs0: Logs, ghost disk0: Disk, ghost faults0: nat)
      returns (ok: bool, data: seq<Message>, origin: seq<nat>, finished: seq<bool>, ghost done: seq<Delivery>)
      requires At(w, msgs, 0, [], [], seq(|msgs|, _ => false), r0, n0, logs0) && Orderly(w, faults0, msgs, 0, r0, n0, disk0, [], [], logs0)
      modifies w, this`replied, this`panics, broker`replies, importer`stores, importer`marks, importer.Repr()
      ensures panics == old(panics) + if ok then 0 else 1
      ensures fresh(importer.Repr() - old(importer.Repr()))
      ensures old(w.ended) ==> w.ended
      ensures Later(logs0, importer.Log(), w.faults - faults0)
      ensures ok ==> At(w, msgs, |msgs|, data, origin, finished, r0, n0, logs0) && Orderly(w, faults0, msgs, |msgs|, r0, n0, disk0, origin, done, logs0)
      ensures !ok ==> Panicked(w, msgs, r0, n0)
    {
      ok, finished, done := true, seq(|msgs|, _ => false), [];
      var size: nat;
      data, origin, size := [], [], 0;
      for i := 0 to |msgs|
        invariant ok && panics == old(panics) && At(w, msgs, i, data, origin, finished, r0, n0, logs0) && fresh(importer.Repr() - old(importer.Repr()))
        invariant old(w.ended) ==> w.ended
        invariant Orderly(w, faults0, msgs, i, r0, n0, disk0, origin, done, logs0)
      {
        ok, data, origin, size, finished, done := ReadNext(w, msgs, i, data, origin, size, finished, r0, n0, logs0, disk0, done, faults0);
        if !ok {
          return;
        }
      }
    }

    /** The part left after the last delivery. */
    method LastPart(w: Context, msgs: seq<Delivery>, data: seq<Message>, origin: seq<nat>, finished: seq<bool>,
                    ghost r0: set<nat>, ghost n0: seq<nat>, ghost logs0: Logs, ghost disk0: Disk, ghost done: seq<Delivery>, ghost faults0: nat)
      returns (ok: bool, finished': seq<bool>, ghost done': seq<Delivery>)
      requires At(w, msgs, |msgs|, data, origin, finished, r0, n0, logs0) && faults0 <= w.faults
      requires w.faults == faults0 && !w.ended && r0 !! SetOf(Ids(msgs)) ==> InOrder(importer.z, msgs, |msgs|, disk0, importer.Content(), Since(n0), origin, done)
      modifies w, this`replied, this`panics, broker`replies, importer`stores, importer`marks, importer.Repr()
      ensures panics == old(panics) + if ok then 0 else 1
      ensures fresh(importer.Repr() - old(importer.Repr()))
      ensures old(w.ended) ==> w.ended
      ensures Later(old(importer.Log()), importer.Log(), w.faults - old(w.faults))
      ensures ok ==> At(w, msgs, |msgs|, [], [], finished', r0, n0, logs0)
      ensures !ok ==> Panicked(w, msgs, r0, n0)
      ensures ok && w.faults == faults0 && !w.ended && r0 !! SetOf(Ids(msgs)) ==> InOrder(importer.z, msgs, |msgs|, disk0, importer.Content(), Since(n0), [], done')
    {
      ok, finished', done' := true, finished, done;
      LaterSame(importer.Log());
      if data != [] {
        ok, finished' := FlushPart(w, msgs, |msgs|, data, origin, finished, r0, n0, logs0, disk0, done);
        done' := done + Part(msgs, origin);
      }
    }

    /** All parts of the deliveries. */
    method RunParts(w: Context, msgs: seq<Delivery>, ghost r0: set<nat>, ghost n0: seq<nat>, ghost logs0: Logs, ghost disk0: Disk)
      returns (ok: bool, finished: seq<bool>, ghost done: seq<Delivery>)
      requires importer.Valid() && DistinctIds(msgs)
      requires replied !! SetOf(Ids(msgs)) || |msgs| == 1
      requires r0 == replied && n0 == broker.replies && logs0 == importer.Log() && disk0 == importer.Content()
      modifies w, this`replied, this`panics, broker`replies, importer`stores, importer`marks, importer.Repr()
      ensures panics == old(panics) + if ok then 0 else 1
      ensures fresh(importer.Repr() - old(importer.Repr()))
      ensures old(w.ended) ==> w.ended
      ensures Later(old(importer.Log()), importer.Log(), w.faults - old(w.faults))
      ensures ok ==> At(w, msgs, |msgs|, [], [], finished, r0, n0, logs0)
      ensures !ok ==> Panicked(w, msgs, r0, n0)
      ensures ok && w.faults == old(w.faults) && !w.ended && r0 !! SetOf(Ids(msgs)) ==> InOrder(importer.z, msgs, |msgs|, disk0, importer.Content(), Since(n0), [], done)
    {
      var data, origin;
      BeforeFirst(w, msgs, seq(|msgs|, _ => false), r0, n0, logs0, disk0);
      ok, data, origin, finished, done := ReadDeliveries(w, msgs, r0, n0, logs0, disk0, w.faults);
      if ok {
        ghost var logs, faults := importer.Log(), w.faults;
        ok, finished, done := LastPart(w, msgs, data, origin, finished, r0, n0, logs0, disk0, done, old(w.faults));
        LaterTwice(logs0, logs, importer.Log(), faults - old(w.faults), w.faults - faults);
      }
    }

    /** executeParts: the deliveries in order, in parts of about the budget. ok is false after a panic. */
    method ExecuteParts(w: Context, msgs: seq<Delivery>) returns (ok: bool, finished: seq<bool>)
      requires importer.Valid() && DistinctIds(msgs)
      requires replied !! SetOf(Ids(msgs)) || |msgs| == 1
      modifies w, this`replied, this`panics, broker`replies, importer`stores, importer`marks, importer.Repr()
      ensures panics == old(panics) + if ok then 0 else 1
      ensures importer.Valid() && fresh(importer.Repr() - old(importer.Repr()))
      ensures old(w.ended) ==> w.ended
      ensures Later(old(importer.Log()), importer.Log(), w.faults - old(w.faults))
      ensures old(broker.replies) <= broker.replies
      ensures RunDone(msgs, ok, old(replied), replied, Since(old(broker.replies)), finished, w.ended)
      ensures Sent(importer.z, importer.Log(), msgs, Since(old(broker.replies)))
      ensures ok ==> Handled(importer.z, msgs, |msgs|, old(replied), Since(old(broker.replies)), [], w.ended, old(importer.Log()), importer.Log())
      ensures ok && w.faults == old(w.faults) && !w.ended && old(replied) !! SetOf(Ids(msgs)) ==> AllInOrder(importer.z, msgs, old(importer.Content()), importer.Content(), Since(old(broker.replies)))
    {
      ghost var r0, n0, disk0, logs0 := replied, broker.replies, importer.Content(), importer.Log();
      ghost var done;
      ok, finished, done := RunParts(w, msgs, r0, n0, logs0, disk0);
      if ok {
        ForgetReplied(w, msgs, finished, r0, n0, logs0, disk0, done);
      } else {
        RunPanicked(msgs, r0, replied, Since(n0), finished, w.ended);
      }
    }

    /** No panic: nothing is run again. */
    method ForgetReplied(w: Context, msgs: seq<Delivery>, finished: seq<bool>, ghost r0: set<nat>, ghost n0: seq<nat>, ghost logs0: Logs, ghost disk0: Disk, ghost done: seq<Delivery>)
      requires At(w, msgs, |msgs|, [], [], finished, r0, n0, logs0)
      modifies this`replied
      ensures importer.Content() == old(importer.Content()) && importer.Log() == old(importer.Log())
      ensures RunDone(msgs, true, r0, replied, Since(n0), finished, w.ended)
      ensures Handled(importer.z, msgs, |msgs|, r0, Since(n0), [], w.ended, logs0, importer.Log())
      ensures InOrder(importer.z, msgs, |msgs|, disk0, importer.Content(), Since(n0), [], done) ==> AllInOrder(importer.z, msgs, disk0, importer.Content(), Since(n0))
    {
      ghost var n, disk, logs := Since(n0), importer.Content(), importer.Log();
      PartsEnd(importer.z, msgs, r0, replied, n, finished, w.ended, disk0, disk, done, importer.Log(), logs0);
      replied := replied - SetOf(Ids(msgs));
      assert Since(n0) == n && importer.Content() == disk && importer.Log() == logs;
    }

    /** The rerun before message i, in a batch that began with the replies n0, the history logs0 and faults0. */
    ghost predicate Rerunning(w: Context, msgs: seq<Delivery>, i: nat, r0: set<nat>, n0: seq<nat>, logs0: Logs, faults0: nat, finished: seq<bool>, panics0: nat)
      reads this, broker, w, importer, importer.Repr()
    {
      && importer.Valid() && n0 <= broker.replies && panics0 <= panics
      && RerunSo(importer.z, msgs, i, r0, replied, Since(n0), finished, w.ended, logs0, importer.Log(), w.faults - faults0, panics - panics0)
    }

    /** The messages one by one, each with its own recover. */
    method RunSingly(w: Context, msgs: seq<Delivery>, ghost r0: set<nat>, ghost n0: seq<nat>, ghost logs0: Logs, ghost faults0: nat) returns (finished: seq<bool>)
      requires importer.Valid() && DistinctIds(msgs) && Later(logs0, importer.Log(), w.faults - faults0)
      requires n0 <= broker.replies && RunDone(msgs, false, r0, replied, Since(n0), [], w.ended)
      requires Sent(importer.z, importer.Log(), msgs, Since(n0))
      modifies w, this`replied, this`panics, broker`replies, importer`stores, importer`marks, importer.Repr()
      ensures fresh(importer.Repr() - old(importer.Repr()))
      ensures old(w.ended) ==> w.ended
      ensures Rerunning(w, msgs, |msgs|, r0, n0, logs0, faults0, finished, old(panics))
    {
      finished := seq(|msgs|, _ => false);
      RerunStart(msgs, r0, replied, Since(n0), [], finished, w.ended);
      assert Unserved(importer.z, msgs, 0, Since(n0), logs0, importer.Log()) == {};
      for i := 0 to |msgs|
        invariant fresh(importer.Repr() - old(importer.Repr()))
        invariant old(w.ended) ==> w.ended
        invariant Rerunning(w, msgs, i, r0, n0, logs0, faults0, finished, old(panics))
      {
        finished := RunOne(w, msgs, i, r0, n0, logs0, faults0, finished, old(panics));
      }
    }

    method RunOne(w: Context, msgs: seq<Delivery>, i: nat, ghost r0: set<nat>, ghost n0: seq<nat>, ghost logs0: Logs, ghost faults0: nat, finished: seq<bool>, ghost panics0: nat)
      returns (finished': seq<bool>)
      requires i < |msgs| && Rerunning(w, msgs, i, r0, n0, logs0, faults0, finished, panics0)
      modifies w, this`replied, this`panics, broker`replies, importer`stores, importer`marks, importer.Repr()
      ensures fresh(importer.Repr() - old(importer.Repr()))
      ensures old(w.ended) ==> w.ended
      ensures Rerunning(w, msgs, i + 1, r0, n0, logs0, faults0, finished', panics0)
    {
      ghost var replies, n, r, ended, logs, faults, lost := broker.replies, Since(n0), replied, w.ended, importer.Log(), w.faults, panics - panics0;
      var ok, f := ExecuteParts(w, msgs[i..i + 1]);
      finished' := finished[i := !ok || f[0]];
      ghost var m := Since(replies);
      assert broker.replies == replies + m;
      SuffixConcat(n0, replies, m);
      RerunStep(importer.z, msgs, i, r0, r, n, finished, ended, logs0, logs, faults - faults0, lost, ok, replied, m, f, w.ended, importer.Log(), w.faults - faults);
    }

    /** Ack the finished messages, in order. */
    method AckFinished(msgs: seq<Delivery>, finished: seq<bool>)
      requires |finished| == |msgs|
      modifies broker`acks
      ensures broker.acks == old(broker.acks) + FinishedIds(msgs, finished)
    {
      for i := 0 to |msgs|
        invariant broker.acks == old(broker.acks) + FinishedIds(msgs[..i], finished[..i])
      {
        assert msgs[..i + 1][..i] == msgs[..i] && finished[..i + 1][..i] == finished[..i];
        if finished[i] {
          broker.acks := broker.acks + [msgs[i].id];
        }
      }
      assert msgs[..|msgs|] == msgs && finished[..|finished|] == finished;
    }

    /** executeBatch without the acks: the batch, and after a panic its messages one by one. */
    method RunBatch(w: Context, msgs: seq<Delivery>) returns (finished: seq<bool>, panicked: bool)
      requires importer.Valid() && DistinctIds(msgs) && replied !! SetOf(Ids(msgs))
      modifies w, this`replied, this`panics, broker`replies, importer`stores, importer`marks, importer.Repr()
      ensures importer.Valid() && fresh(importer.Repr() - old(importer.Repr()))
      ensures old(w.ended) ==> w.ended
      ensures Later(old(importer.Log()), importer.Log(), w.faults - old(w.faults))
      ensures old(panics) <= panics && (panicked <==> old(panics) < panics)
      ensures old(broker.replies) <= broker.replies && replied == old(replied)
      ensures |finished| == |msgs| && NoDup(Since(old(broker.replies))) && SetOf(Since(old(broker.replies))) <= SetOf(Ids(msgs))
      ensures Closed(msgs, {}, Since(old(broker.replies)), finished, w.ended)
      ensures Sent(importer.z, importer.Log(), msgs, Since(old(broker.replies)))
      ensures w.ended || |Unserved(importer.z, msgs, |msgs|, Since(old(broker.replies)), old(importer.Log()), importer.Log())| <= Losses(|msgs|, panics - old(panics))
      ensures !panicked && w.faults == old(w.faults) && !w.ended ==> AllInOrder(importer.z, msgs, old(importer.Content()), importer.Content(), Since(old(broker.replies)))
    {
      ghost var r0, n0, logs0 := replied, broker.replies, importer.Log();
      var ok;
      ok, finished := ExecuteParts(w, msgs);
      panicked := !ok;
      if ok {
        HandledAll(importer.z, msgs, r0, Since(n0), w.ended, logs0, importer.Log());
      } else if |msgs| == 1 {
        finished := [true];
        UnservedFew(importer.z, msgs, Since(n0), logs0, importer.Log());
      } else {
        finished := RerunAll(w, msgs, r0, n0, logs0, old(w.faults));
      }
    }

    /** The rerun after the panic of a batch. */
    method RerunAll(w: Context, msgs: seq<Delivery>, ghost r0: set<nat>, ghost n0: seq<nat>, ghost logs0: Logs, ghost faults0: nat) returns (finished: seq<bool>)
      requires importer.Valid() && DistinctIds(msgs) && Later(logs0, importer.Log(), w.faults - faults0) && r0 !! SetOf(Ids(msgs))
      requires n0 <= broker.replies && RunDone(msgs, false, r0, replied, Since(n0), [], w.ended)
      requires Sent(importer.z, importer.Log(), msgs, Since(n0))
      modifies w, this`replied, this`panics, broker`replies, importer`stores, importer`marks, importer.Repr()
      ensures importer.Valid() && fresh(importer.Repr() - old(importer.Repr()))
      ensures old(w.ended) ==> w.ended
      ensures Later(logs0, importer.Log(), w.faults - faults0) && old(panics) <= panics
      ensures n0 <= broker.replies && replied == r0
      ensures |finished| == |msgs| && NoDup(Since(n0)) && SetOf(Since(n0)) <= SetOf(Ids(msgs))
      ensures Closed(msgs, {}, Since(n0), finished, w.ended) && Sent(importer.z, importer.Log(), msgs, Since(n0))
      ensures Lost(importer.z, msgs, |msgs|, Since(n0), w.ended, logs0, importer.Log(), panics - old(panics))
    {
      finished := RunSingly(w, msgs, r0, n0, logs0, faults0);
      assert msgs[..|msgs|] == msgs;
    }

    /** executeBatch. Whatever panics, store errors and stops happen: each message gets at most one reply,
        only a stored one, and at most one ack; every replied message is acked; replied forgets the
        batch; without a stop every message is acked, and a decodable one is only left without a reply if a
        store refused a block of it or could not be opened, or for a panic of its own. */
    method ExecuteBatch(w: Context, msgs: seq<Delivery>) returns (panicked: bool)
      requires importer.Valid() && DistinctIds(msgs) && replied !! SetOf(Ids(msgs))
      requires broker.Sound() && SetOf(broker.acks) !! SetOf(Ids(msgs))
      modifies w, this`replied, this`panics, broker, importer`stores, importer`marks, importer.Repr()
      ensures importer.Valid() && fresh(importer.Repr() - old(importer.Repr()))
      ensures old(w.ended) ==> w.ended
      ensures broker.Sound() && replied == old(replied) && Later(old(importer.Log()), importer.Log(), w.faults - old(w.faults))
      ensures old(broker.replies) <= broker.replies && old(broker.acks) <= broker.acks
      ensures BatchDone(msgs, Since(old(broker.replies)), broker.acks[|old(broker.acks)|..], w.ended)
      ensures Sent(importer.z, importer.Log(), msgs, Since(old(broker.replies)))
      ensures old(panics) <= panics && (panicked <==> old(panics) < panics)
      ensures w.ended || |Unserved(importer.z, msgs, |msgs|, Since(old(broker.replies)), old(importer.Log()), importer.Log())| <= Losses(|msgs|, panics - old(panics))
      ensures w.faults == old(w.faults) && !w.ended && |msgs| > 1 && panics <= old(panics) + 1 ==> AllReplied(msgs, Since(old(broker.replies)))
      ensures !panicked && w.faults == old(w.faults) && !w.ended ==> AllInOrder(importer.z, msgs, old(importer.Content()), importer.Content(), Since(old(broker.replies)))
    {
      ghost var n0, logs0 := broker.replies, importer.Log();
      var finished;
      finished, panicked := RunBatch(w, msgs);
      ghost var disk, logs, n := importer.Content(), importer.Log(), Since(n0);
      AckBatch(msgs, finished, n0, w.ended);
      assert importer.Content() == disk && importer.Log() == logs && Since(n0) == n;
      if w.faults == old(w.faults) && !w.ended && |msgs| > 1 && panics <= old(panics) + 1 {
        CalmReplied(importer.z, msgs, n, logs0, logs);
      }
    }

    /** The batches of a tenant one after the other: over all of them, whatever happens, each message is
        replied and acked at most once, a replied one is stored and acked, and without a stop all are acked. */
    method ExecuteBatches(w: Context, batches: seq<seq<Delivery>>)
      requires importer.Valid() && DistinctIds(AllOf(batches)) && replied !! SetOf(Ids(AllOf(batches)))
      requires broker.Sound() && SetOf(broker.acks) !! SetOf(Ids(AllOf(batches)))
      modifies w, this`replied, this`panics, broker, importer`stores, importer`marks, importer.Repr()
      ensures importer.Valid() && broker.Sound() && replied == old(replied)
      ensures old(broker.replies) <= broker.replies && old(broker.acks) <= broker.acks
      ensures AllDone(importer.z, importer.Log(), AllOf(batches), Since(old(broker.replies)), broker.acks[|old(broker.acks)|..], w.ended)
    {
      ghost var n0, a0 := broker.replies, broker.acks;
      for i := 0 to |batches|
        invariant BatchesDone(w, batches, i, n0, a0) && replied == old(replied) && fresh(importer.Repr() - old(importer.Repr()))
      {
        NextBatch(w, batches, i, n0, a0);
      }
      assert batches[..|batches|] == batches;
    }

    /** The first i batches are done, since the broker had the replies n0 and the acks a0. */
    ghost predicate BatchesDone(w: Context, batches: seq<seq<Delivery>>, i: nat, n0: seq<nat>, a0: seq<nat>)
      reads this, broker, w, importer, importer.Repr()
      requires i <= |batches|
    {
      && importer.Valid() && broker.Sound() && n0 <= broker.replies && a0 <= broker.acks
      && AllDone(importer.z, importer.Log(), AllOf(batches[..i]), Since(n0), broker.acks[|a0|..], w.ended)
    }

    method NextBatch(w: Context, batches: seq<seq<Delivery>>, i: nat, ghost n0: seq<nat>, ghost a0: seq<nat>)
      requires i < |batches| && BatchesDone(w, batches, i, n0, a0)
      requires DistinctIds(AllOf(batches)) && replied !! SetOf(Ids(AllOf(batches))) && SetOf(a0) !! SetOf(Ids(AllOf(batches)))
      modifies w, this`replied, this`panics, broker, importer`stores, importer`marks, importer.Repr()
      ensures BatchesDone(w, batches, i + 1, n0, a0) && replied == old(replied) && fresh(importer.Repr() - old(importer.Repr()))
    {
      ghost var n, a, logs, replies, acks := Since(n0), broker.acks[|a0|..], importer.Log(), broker.replies, broker.acks;
      ghost var ended := w.ended;
      NextFresh(batches, i, replied, a0, a);
      assert acks == a0 + a;
      var _ := ExecuteBatch(w, batches[i]);
      assert LogsGrow(logs, importer.Log());
      SuffixConcat(n0, replies, Since(replies));
      SuffixConcat(a0, acks, broker.acks[|acks|..]);
      assert broker.replies == replies + Since(replies) && broker.acks == acks + broker.acks[|acks|..];
      AllDoneNext(importer.z, logs, importer.Log(), AllOf(batches[..i]), batches[i], n, Since(replies), a, broker.acks[|acks|..], ended, w.ended);
    }

    /** The acks at the end of executeBatch. */
    method AckBatch(msgs: seq<Delivery>, finished: seq<bool>, ghost n0: seq<nat>, ghost ended: bool)
      requires |finished| == |msgs| && DistinctIds(msgs) && SetOf(broker.acks) !! SetOf(Ids(msgs))
      requires n0 <= broker.replies && NoDup(n0) && NoDup(broker.acks) && SetOf(n0) <= SetOf(broker.acks)
      requires NoDup(Since(n0)) && SetOf(Since(n0)) <= SetOf(Ids(msgs)) && Closed(msgs, {}, Since(n0), finished, ended)
      modifies broker`acks
      ensures broker.Sound() && old(broker.acks) <= broker.acks
      ensures BatchDone(msgs, Since(n0), broker.acks[|old(broker.acks)|..], ended)
    {
      ghost var n, a0 := Since(n0), broker.acks;
      assert broker.replies == n0 + n;
      BatchEnd(msgs, n, finished, ended);
      AckFinished(msgs, finished);
      SuffixConcat(a0, a0, FinishedIds(msgs, finished));
      StaysSound(msgs, n0, a0, n, FinishedIds(msgs, finished), ended);
    }
  }

  function AllOf(batches: seq<seq<Delivery>>): seq<Delivery> {
    if batches == [] then [] else AllOf(batches[..|batches| - 1]) + batches[|batches| - 1]
  }

  lemma {:induction false} AllOfSplit(batches: seq<seq<Delivery>>, i: nat)
    requires i <= |batches|
    ensures AllOf(batches[..i]) <= AllOf(batches)
  {
    if i == |batches| {
      assert batches[..i] == batches;
    } else {
      var n := |batches| - 1;
      AllOfSplit(batches[..n], i);
      assert batches[..n][..i] == batches[..i];
    }
  }

  /** The replies n and acks a for the messages so far. */
  ghost predicate AllDone(z: Zone, logs: Logs, all: seq<Delivery>, n: seq<nat>, a: seq<nat>, ended: bool) {
    && SetOf(n) <= SetOf(a) <= SetOf(Ids(all))
    && Sent(z, logs, all, n)
    && (!ended ==> SetOf(a) == SetOf(Ids(all)))
  }

  /** The next batch is new: its messages are neither acked nor replied before. */
  lemma NextFresh(batches: seq<seq<Delivery>>, i: nat, replied: set<nat>, a0: seq<nat>, a: seq<nat>)
    requires i < |batches| && DistinctIds(AllOf(batches)) && replied !! SetOf(Ids(AllOf(batches))) && SetOf(a0) !! SetOf(Ids(AllOf(batches)))
    requires SetOf(a) <= SetOf(Ids(AllOf(batches[..i])))
    ensures AllOf(batches[..i + 1]) == AllOf(batches[..i]) + batches[i]
    ensures DistinctIds(AllOf(batches[..i]) + batches[i]) && DistinctIds(batches[i])
    ensures replied !! SetOf(Ids(batches[i])) && SetOf(a0 + a) !! SetOf(Ids(batches[i]))
  {
    assert batches[..i + 1][..i] == batches[..i];
    AllOfSplit(batches, i + 1);
    PrefixDistinct(AllOf(batches[..i]), batches[i], AllOf(batches));
    assert SetOf(a0 + a) == SetOf(a0) + SetOf(a);
  }

  lemma PrefixDistinct(before: seq<Delivery>, msgs: seq<Delivery>, all: seq<Delivery>)
    requires before + msgs <= all && DistinctIds(all)
    ensures DistinctIds(before + msgs) && DistinctIds(msgs)
    ensures SetOf(Ids(msgs)) <= SetOf(Ids(all)) && SetOf(Ids(before)) !! SetOf(Ids(msgs))
  {
    var ids := Ids(all);
    assert forall k :: 0 <= k < |before + msgs| ==> Ids(before + msgs)[k] == ids[k];
    assert forall k :: 0 <= k < |before| ==> Ids(before)[k] == ids[k];
    assert forall k :: 0 <= k < |msgs| ==> Ids(msgs)[k] == ids[|before| + k];
    forall x | x in SetOf(Ids(msgs)) ensures x in SetOf(ids) && x !in SetOf(Ids(before)) {
      var k :| 0 <= k < |msgs| && Ids(msgs)[k] == x;
      assert ids[|before| + k] == x;
    }
  }

  lemma AllDoneNext(z: Zone, logs: Logs, logs': Logs, all: seq<Delivery>, msgs: seq<Delivery>, n: seq<nat>, m: seq<nat>, a: seq<nat>, b: seq<nat>, ended: bool, ended': bool)
    requires AllDone(z, logs, all, n, a, ended) && BatchDone(msgs, m, b, ended') && LogsGrow(logs, logs') && Sent(z, logs', msgs, m)
    requires DistinctIds(all + msgs) && (ended ==> ended')
    ensures AllDone(z, logs', all + msgs, n + m, a + b, ended')
  {
    IdsConcat(all, msgs);
    assert SetOf(Ids(all) + Ids(msgs)) == SetOf(Ids(all)) + SetOf(Ids(msgs));
    assert SetOf(n + m) == SetOf(n) + SetOf(m) && SetOf(a + b) == SetOf(a) + SetOf(b);
    SentLater(z, logs, logs', all, n);
    SentBoth(z, logs', all, msgs, n, m);
  }

  lemma SentBoth(z: Zone, logs: Logs, all: seq<Delivery>, msgs: seq<Delivery>, n: seq<nat>, m: seq<nat>)
    requires Sent(z, logs, all, n) && Sent(z, logs, msgs, m) && DistinctIds(all + msgs)
    requires SetOf(n) <= SetOf(Ids(all)) && SetOf(m) <= SetOf(Ids(msgs))
    ensures Sent(z, logs, all + msgs, n + m)
  {
    var both := all + msgs;
    forall k | 0 <= k < |both| && both[k].id in n + m ensures Kept(z, logs, both[k]) {
      var x := both[k].id;
      if x in n {
        assert x in SetOf(n);
        var j :| 0 <= j < |all| && Ids(all)[j] == x;
        assert Ids(both)[j] == Ids(both)[k];
      } else {
        assert x in SetOf(m);
        var j :| 0 <= j < |msgs| && Ids(msgs)[j] == x;
        assert Ids(both)[|all| + j] == Ids(both)[k];
      }
    }
  }

  lemma OneSent(z: Zone, logs: Logs, msgs: seq<Delivery>, i: nat, m: seq<nat>)
    requires i < |msgs| && DistinctIds(msgs) && Sent(z, logs, [msgs[i]], m) && SetOf(m) <= {msgs[i].id}
    ensures Sent(z, logs, msgs, m)
  {
    forall k | 0 <= k < |msgs| && msgs[k].id in m ensures Kept(z, logs, msgs[k]) {
      assert msgs[k].id in SetOf(m);
      assert Ids(msgs)[k] == Ids(msgs)[i];
      assert [msgs[i]][0].id in m;
    }
  }

  lemma StaysSound(msgs: seq<Delivery>, n0: seq<nat>, a0: seq<nat>, n: seq<nat>, a: seq<nat>, ended: bool)
    requires NoDup(n0) && NoDup(a0) && SetOf(n0) <= SetOf(a0) && SetOf(a0) !! SetOf(Ids(msgs))
    requires BatchDone(msgs, n, a, ended)
    ensures NoDup(n0 + n) && NoDup(a0 + a) && SetOf(n0 + n) <= SetOf(a0 + a)
  {
    NoDupConcat(n0, n);
    NoDupConcat(a0, a);
  }

  // ----- the rerun message by message and the acks -----

  /** After i messages of the rerun: what is replied so far, and which of the first i are finished. */
  ghost predicate Rerun(msgs: seq<Delivery>, i: nat, r0: set<nat>, replied: set<nat>, n: seq<nat>, finished: seq<bool>, ended: bool) {
    && i <= |msgs| == |finished|
    && DistinctIds(msgs)
    && r0 !! SetOf(Ids(msgs))
    && NoDup(n) && SetOf(n) <= SetOf(Ids(msgs))
    && replied == r0 + (SetOf(n) - SetOf(Ids(msgs[..i])))
    && forall k :: 0 <= k < i ==> (msgs[k].id in n ==> finished[k]) && (finished[k] || ended)
  }

  /** The messages before i are handled in order if no fault and no stop came. */
  ghost predicate OrderSo(z: Zone, msgs: seq<Delivery>, i: nat, r0: set<nat>, disk0: Disk, disk: Disk, n: seq<nat>, origin: seq<nat>, done: seq<Delivery>, logs0: Logs, logs: Logs, ended: bool, faults: int) {
    && i <= |msgs| && Later(logs0, logs, faults)
    && (faults == 0 && !ended && r0 !! SetOf(Ids(msgs)) ==> InOrder(z, msgs, i, disk0, disk, n, origin, done))
  }

  /** In the rerun no more messages were lost than panics came. */
  ghost predicate Lost(z: Zone, msgs: seq<Delivery>, i: nat, n: seq<nat>, ended: bool, logs0: Logs, logs: Logs, panics: int)
    requires i <= |msgs|
  {
    ended || |Unserved(z, msgs, i, n, logs0, logs)| <= panics
  }

  /** The rerun before message i, with what it replied, stored and lost so far. */
  ghost predicate RerunSo(z: Zone, msgs: seq<Delivery>, i: nat, r0: set<nat>, replied: set<nat>, n: seq<nat>, finished: seq<bool>, ended: bool, logs0: Logs, logs: Logs, faults: int, panics: int) {
    && Rerun(msgs, i, r0, replied, n, finished, ended)
    && Later(logs0, logs, faults)
    && Sent(z, logs, msgs, n)
    && Lost(z, msgs, i, n, ended, logs0, logs, panics)
  }

  /** One message on its own. */
  lemma RerunStep(z: Zone, msgs: seq<Delivery>, i: nat, r0: set<nat>, r: set<nat>, n: seq<nat>, finished: seq<bool>, ended: bool, logs0: Logs, logs: Logs, faults: int, panics: int,
                  ok: bool, r': set<nat>, m: seq<nat>, f: seq<bool>, ended': bool, logs': Logs, faults': int)
    requires i < |msgs| && RerunSo(z, msgs, i, r0, r, n, finished, ended, logs0, logs, faults, panics) && (ended ==> ended')
    requires RunDone(msgs[i..i + 1], ok, r, r', m, f, ended') && Later(logs, logs', faults') && Sent(z, logs', msgs[i..i + 1], m)
    requires ok ==> Handled(z, msgs[i..i + 1], 1, r, m, [], ended', logs, logs')
    ensures RerunSo(z, msgs, i + 1, r0, r', n + m, finished[i := !ok || f[0]], ended', logs0, logs', faults + faults', panics + if ok then 0 else 1)
  {
    assert msgs[i..i + 1] == [msgs[i]];
    RerunNext(msgs, i, r0, r, n, finished, ended, ok, r', m, f, ended');
    OneReplied(msgs[i], ok, r, r', m, f, ended');
    OneSent(z, logs', msgs, i, m);
    SentConcat(z, logs, logs', msgs, n, m);
    LaterTwice(logs0, logs, logs', faults, faults');
    UnservedNext(z, msgs, i, r0, r, n, finished, ended, ok, m, ended', logs0, logs, logs');
  }

  lemma OneReplied(d: Delivery, ok: bool, r: set<nat>, r': set<nat>, m: seq<nat>, f: seq<bool>, ended: bool)
    requires RunDone([d], ok, r, r', m, f, ended)
    ensures SetOf(m) <= {d.id}
  {
    assert Ids([d]) == [d.id];
  }

  lemma RerunStart(msgs: seq<Delivery>, r0: set<nat>, replied: set<nat>, n: seq<nat>, finished: seq<bool>, finished': seq<bool>, ended: bool)
    requires DistinctIds(msgs) && RunDone(msgs, false, r0, replied, n, finished, ended) && |finished'| == |msgs|
    ensures Rerun(msgs, 0, r0, replied, n, finished', ended)
  {
    assert msgs[..0] == [];
  }

  lemma RerunNext(msgs: seq<Delivery>, i: nat, r0: set<nat>, replied: set<nat>, n: seq<nat>, finished: seq<bool>, ended: bool,
                  ok: bool, replied': set<nat>, m: seq<nat>, f: seq<bool>, ended': bool)
    requires i < |msgs| && Rerun(msgs, i, r0, replied, n, finished, ended) && (ended ==> ended')
    requires RunDone(msgs[i..i + 1], ok, replied, replied', m, f, ended')
    ensures Rerun(msgs, i + 1, r0, replied', n + m, finished[i := !ok || f[0]], ended')
  {
    var id := msgs[i].id;
    IdsNext(msgs, i);
    assert msgs[i..i + 1] == [msgs[i]];
    assert Ids([msgs[i]]) == [id];
    assert Ids(msgs)[i] == id;
    assert id in replied <==> id in n;
    NoDupConcat(n, m);
    assert forall x :: x in m ==> x in SetOf(m);
    assert forall k :: 0 <= k < i ==> Ids(msgs[..i])[k] == msgs[k].id;
    assert ok ==> [msgs[i]][0].id == id && (id in n + m ==> f[0]) && (f[0] || ended');
    assert !ok ==> m == [];
  }

  /** The ids of the finished deliveries, in order. */
  function FinishedIds(msgs: seq<Delivery>, finished: seq<bool>): seq<nat>
    requires |finished| == |msgs|
  {
    if msgs == [] then []
    else
      var n := |msgs| - 1;
      FinishedIds(msgs[..n], finished[..n]) + if finished[n] then [msgs[n].id] else []
  }

  lemma {:induction false} FinishedWithin(msgs: seq<Delivery>, finished: seq<bool>, id: nat)
    requires |finished| == |msgs|
    ensures id in FinishedIds(msgs, finished) <==> exists k :: 0 <= k < |msgs| && msgs[k].id == id && finished[k]
  {
    if msgs != [] {
      var n := |msgs| - 1;
      var init := msgs[..n];
      FinishedWithin(init, finished[..n], id);
      assert forall k :: 0 <= k < n ==> init[k] == msgs[k] && finished[..n][k] == finished[k];
      if exists k :: 0 <= k < |msgs| && msgs[k].id == id && finished[k] {
        var k :| 0 <= k < |msgs| && msgs[k].id == id && finished[k];
        assert k < n ==> init[k].id == id && finished[..n][k];
      }
    }
  }

  lemma {:induction false} FinishedOnce(msgs: seq<Delivery>, finished: seq<bool>)
    requires |finished| == |msgs| && DistinctIds(msgs)
    ensures NoDup(FinishedIds(msgs, finished))
  {
    if msgs != [] {
      var n := |msgs| - 1;
      var init := msgs[..n];
      assert forall k :: 0 <= k < n ==> Ids(init)[k] == Ids(msgs)[k];
      FinishedOnce(init, finished[..n]);
      FinishedWithin(init, finished[..n], msgs[n].id);
      assert forall k :: 0 <= k < n ==> init[k].id == Ids(msgs)[k] != Ids(msgs)[n];
    }
  }

  lemma {:induction false} FinishedAll(msgs: seq<Delivery>, finished: seq<bool>)
    requires |finished| == |msgs| && forall k :: 0 <= k < |msgs| ==> finished[k]
    ensures FinishedIds(msgs, finished) == Ids(msgs)
  {
    if msgs != [] {
      var n := |msgs| - 1;
      FinishedAll(msgs[..n], finished[..n]);
      assert Ids(msgs) == Ids(msgs[..n]) + [msgs[n].id];
    }
  }

  /** The whole batch, with or without a panic: at most one reply each, every replied message acked, at
      most one ack each, in order; without a stop every message is acked. */
  ghost predicate BatchDone(msgs: seq<Delivery>, n: seq<nat>, a: seq<nat>, ended: bool) {
    && NoDup(n) && NoDup(a)
    && SetOf(n) <= SetOf(a) <= SetOf(Ids(msgs))
    && (exists finished :: |finished| == |msgs| && a == FinishedIds(msgs, finished))
    && (!ended ==> a == Ids(msgs))
  }

  lemma BatchEnd(msgs: seq<Delivery>, n: seq<nat>, finished: seq<bool>, ended: bool)
    requires |finished| == |msgs| && DistinctIds(msgs) && NoDup(n) && SetOf(n) <= SetOf(Ids(msgs)) && Closed(msgs, {}, n, finished, ended)
    ensures BatchDone(msgs, n, FinishedIds(msgs, finished), ended)
  {
    var a := FinishedIds(msgs, finished);
    FinishedOnce(msgs, finished);
    forall id | id in n ensures id in a {
      assert id in SetOf(n);
      var k :| 0 <= k < |msgs| && Ids(msgs)[k] == id;
      FinishedWithin(msgs, finished, id);
    }
    forall id | id in a ensures id in SetOf(Ids(msgs)) {
      FinishedWithin(msgs, finished, id);
      var k :| 0 <= k < |msgs| && msgs[k].id == id;
      assert Ids(msgs)[k] == id;
    }
    if !ended {
      FinishedAll(msgs, finished);
    }
  }

  /** Without a panic, a stop or a failing store: everything decodable is replied in order, and the
      stores hold what importing message by message leaves. */
  ghost predicate AllInOrder(z: Zone, msgs: seq<Delivery>, disk0: Disk, disk: Disk, n: seq<nat>) {
    n == Ids(Decodable(msgs)) && Landed(z, disk0, disk, Decodable(msgs))
  }

  lemma PartsEnd(z: Zone, msgs: seq<Delivery>, r0: set<nat>, replied: set<nat>, n: seq<nat>, finished: seq<bool>, ended: bool,
                 disk0: Disk, disk: Disk, done: seq<Delivery>, logs: Logs, base: Logs)
    requires Stands(z, msgs, |msgs|, r0, replied, n, finished, [], ended, [], logs, base)
    ensures RunDone(msgs, true, r0, replied - SetOf(Ids(msgs)), n, finished, ended)
    ensures InOrder(z, msgs, |msgs|, disk0, disk, n, [], done) ==> AllInOrder(z, msgs, disk0, disk, n)
  {
    LedgerEnd(msgs, r0, replied, n, finished, ended);
    if InOrder(z, msgs, |msgs|, disk0, disk, n, [], done) {
      InOrderEnd(z, msgs, disk0, disk, n, done);
    }
  }

  lemma InOrderEnd(z: Zone, msgs: seq<Delivery>, disk0: Disk, disk: Disk, n: seq<nat>, done: seq<Delivery>)
    requires InOrder(z, msgs, |msgs|, disk0, disk, n, [], done)
    ensures AllInOrder(z, msgs, disk0, disk, n)
  {
    assert msgs[..|msgs|] == msgs;
    assert Part(msgs, []) == [];
    assert done + [] == done;
  }

  lemma Start(z: Zone, msgs: seq<Delivery>, r0: set<nat>, finished: seq<bool>, ended: bool, logs: Logs, disk: Disk)
    requires DistinctIds(msgs) && |finished| == |msgs| && (r0 !! SetOf(Ids(msgs)) || |msgs| == 1)
    ensures Stands(z, msgs, 0, r0, r0, [], finished, [], ended, [], logs, logs)
    ensures InOrder(z, msgs, 0, disk, disk, [], [], [])
  {
    assert msgs[..0] == [];
    assert Part(msgs, []) == [] && Ids([]) == [];
    assert Messages([]) == [];
    LedgerStart(msgs, r0, finished, ended);
  }

  lemma LedgerStart(msgs: seq<Delivery>, r0: set<nat>, finished: seq<bool>, ended: bool)
    requires DistinctIds(msgs) && |finished| == |msgs|
    ensures Ledger(msgs, 0, r0, r0, [], finished, [], ended)
  {
    assert SetOf(Ids(msgs[..0])) == {} && SetOf([]) == {};
  }

  lemma RunPanicked(msgs: seq<Delivery>, r0: set<nat>, replied: set<nat>, n: seq<nat>, finished: seq<bool>, ended: bool)
    requires RunDone(msgs, false, r0, replied, n, [], ended)
    ensures RunDone(msgs, false, r0, replied, n, finished, ended)
  {
  }

  /** Only a delivery of an earlier run can be replied already. */
  lemma NotYetReplied(msgs: seq<Delivery>, i: nat, r0: set<nat>, replied: set<nat>, n: seq<nat>, finished: seq<bool>, origin: seq<nat>, ended: bool)
    requires i < |msgs| && Ledger(msgs, i, r0, replied, n, finished, origin, ended) && msgs[i].id in replied
    ensures !(r0 !! SetOf(Ids(msgs)))
  {
    IdsNext(msgs, i);
    assert Ids(msgs)[i] == msgs[i].id;
  }

  lemma SentConcat(z: Zone, logs: Logs, logs': Logs, msgs: seq<Delivery>, n: seq<nat>, m: seq<nat>)
    requires Sent(z, logs, msgs, n) && LogsGrow(logs, logs') && Sent(z, logs', msgs, m)
    ensures Sent(z, logs', msgs, n + m)
  {
    SentLater(z, logs, logs', msgs, n);
  }

  lemma SuffixConcat<T>(n0: seq<T>, n: seq<T>, m: seq<T>)
    requires n0 <= n
    ensures n0 <= n + m && (n + m)[|n0|..] == n[|n0|..] + m
  {
  }

  /** The run stands before delivery i: its books balance, and data holds the current part. */
  ghost predicate Stands(z: Zone, msgs: seq<Delivery>, i: nat, r0: set<nat>, replied: set<nat>, n: seq<nat>, finished: seq<bool>,
                         origin: seq<nat>, ended: bool, data: seq<Message>, logs: Logs, base: Logs)
  {
    && Ledger(msgs, i, r0, replied, n, finished, origin, ended) && Handled(z, msgs, i, r0, n, origin, ended, base, logs)
    && (r0 !! SetOf(Ids(msgs)) || |msgs| == 1)
    && AllDecoded(Part(msgs, origin)) && data == Messages(Part(msgs, origin))
    && Sent(z, logs, msgs, n)
  }

  lemma StandsPart(z: Zone, msgs: seq<Delivery>, i: nat, r0: set<nat>, replied: set<nat>, n: seq<nat>, finished: seq<bool>,
                   origin: seq<nat>, ended: bool, data: seq<Message>, logs: Logs,
                   errs: seq<Outcome>, finished': seq<bool>, ended': bool, logs': Logs, base: Logs)
    requires Stands(z, msgs, i, r0, replied, n, finished, origin, ended, data, logs, base) && (ended ==> ended') && LogsGrow(base, logs) && LogsGrow(logs, logs')
    requires PartFinished(origin, errs, finished, finished') && PartVerdicts(z, logs, logs', data, errs, ended')
    requires Sent(z, logs', msgs, Replies(Part(msgs, origin), errs))
    ensures var m := Replies(Part(msgs, origin), errs); Stands(z, msgs, i, r0, replied + SetOf(m), n + m, finished', [], ended', [], logs', base)
  {
    VerdictStops(z, logs, logs', data, errs, ended');
    HandledPart(z, msgs, i, r0, n, origin, ended, errs, ended', base, logs, logs');
    LedgerPart(msgs, i, r0, replied, n, finished, origin, ended, errs, finished', ended');
    SentConcat(z, logs, logs', msgs, n, Replies(Part(msgs, origin), errs));
    assert Part(msgs, []) == [];
  }

  lemma VerdictStops(z: Zone, logs0: Logs, logs: Logs, data: seq<Message>, errs: seq<Outcome>, ended: bool)
    requires PartVerdicts(z, logs0, logs, data, errs, ended)
    ensures forall t :: 0 <= t < |errs| && errs[t] == Stopped ==> ended
  {
    forall t | 0 <= t < |errs| && errs[t] == Stopped ensures ended {
      assert MessageVerdict(z, errs[t], data[t], logs0, logs, ended);
    }
  }

  lemma StandsPanic(z: Zone, msgs: seq<Delivery>, i: nat, r0: set<nat>, replied: set<nat>, n: seq<nat>, finished: seq<bool>,
                    origin: seq<nat>, ended: bool, data: seq<Message>, logs: Logs, errs: seq<Outcome>, j: nat, logs': Logs, base: Logs)
    requires Stands(z, msgs, i, r0, replied, n, finished, origin, ended, data, logs, base) && LogsGrow(logs, logs')
    requires j < |origin| == |errs| && Sent(z, logs', msgs, Replies(Part(msgs, origin)[..j], errs[..j]))
    ensures var m := Replies(Part(msgs, origin)[..j], errs[..j]);
            RunDone(msgs, false, r0, replied + SetOf(m), n + m, [], ended) && Sent(z, logs', msgs, n + m)
  {
    var m := Replies(Part(msgs, origin)[..j], errs[..j]);
    PartReplies(msgs, origin, errs, j);
    LedgerPanic(msgs, i, r0, replied, n, finished, origin, ended, m);
    SentConcat(z, logs, logs', msgs, n, m);
  }

  lemma StandsReplied(z: Zone, msgs: seq<Delivery>, i: nat, r0: set<nat>, replied: set<nat>, n: seq<nat>, finished: seq<bool>,
                      origin: seq<nat>, ended: bool, data: seq<Message>, logs: Logs, base: Logs)
    requires i < |msgs| && Stands(z, msgs, i, r0, replied, n, finished, origin, ended, data, logs, base) && msgs[i].id in replied
    ensures Stands(z, msgs, i + 1, r0, replied - {msgs[i].id}, n, finished[i := true], origin, ended, data, logs, base) && !(r0 !! SetOf(Ids(msgs)))
  {
    LedgerReplied(msgs, i, r0, replied, n, finished, origin, ended);
    NotYetReplied(msgs, i, r0, replied, n, finished, origin, ended);
    HandledNext(z, msgs, i, r0, n, origin, ended, ended, base, logs);
  }

  lemma StandsSkip(z: Zone, msgs: seq<Delivery>, i: nat, r0: set<nat>, replied: set<nat>, n: seq<nat>, finished: seq<bool>,
                   origin: seq<nat>, ended: bool, data: seq<Message>, logs: Logs, base: Logs, finished': seq<bool>, ended': bool)
    requires i < |msgs| && Stands(z, msgs, i, r0, replied, n, finished, origin, ended, data, logs, base) && msgs[i].id !in replied && (ended ==> ended')
    requires |finished'| == |finished| && (forall k :: 0 <= k < i ==> finished'[k] == finished[k]) && (finished'[i] || ended')
    requires msgs[i].payload.Some? ==> ended'
    ensures Stands(z, msgs, i + 1, r0, replied, n, finished', origin, ended', data, logs, base)
  {
    LedgerSkip(msgs, i, r0, replied, n, finished, origin, ended, finished', ended');
    HandledNext(z, msgs, i, r0, n, origin, ended, ended', base, logs);
  }

  lemma StandsJoin(z: Zone, msgs: seq<Delivery>, i: nat, r0: set<nat>, replied: set<nat>, n: seq<nat>, finished: seq<bool>,
                   origin: seq<nat>, ended: bool, data: seq<Message>, logs: Logs, ended': bool, base: Logs)
    requires i < |msgs| && Stands(z, msgs, i, r0, replied, n, finished, origin, ended, data, logs, base) && (ended ==> ended')
    requires msgs[i].id !in replied && msgs[i].payload.Some?
    ensures Stands(z, msgs, i + 1, r0, replied, n, finished, origin + [i], ended', data + [msgs[i].payload.value.message], logs, base)
  {
    HandledJoin(z, msgs, i, r0, n, origin, ended, ended', base, logs);
    LedgerJoin(msgs, i, r0, replied, n, finished, origin, ended, ended');
    PartNext(msgs, origin, i);
    MessagesConcat(Part(msgs, origin), [msgs[i]]);
    assert Messages([msgs[i]]) == [msgs[i].payload.value.message];
  }

  ghost predicate AllStored(errs: seq<Outcome>) {
    forall t :: 0 <= t < |errs| ==> errs[t] == Ok
  }

  ghost predicate PartVerdicts(z: Zone, logs0: Logs, logs: Logs, data: seq<Message>, errs: seq<Outcome>, ended: bool) {
    |errs| == |data| && forall i :: 0 <= i < |data| ==> MessageVerdict(z, errs[i], data[i], logs0, logs, ended)
  }

  /** The messages replied of a part are stored. */
  lemma PartSent(z: Zone, logs0: Logs, logs: Logs, msgs: seq<Delivery>, origin: seq<nat>, errs: seq<Outcome>, j: nat, ended: bool)
    requires DistinctIds(msgs) && Increasing(origin, |msgs|) && AllDecoded(Part(msgs, origin)) && j <= |origin|
    requires PartVerdicts(z, logs0, logs, Messages(Part(msgs, origin)), errs, ended)
    ensures Sent(z, logs, msgs, Replies(Part(msgs, origin)[..j], errs[..j]))
  {
    var m := Replies(Part(msgs, origin)[..j], errs[..j]);
    PartReplies(msgs, origin, errs, j);
    forall k | 0 <= k < |msgs| && msgs[k].id in m ensures Kept(z, logs, msgs[k]) {
      var t :| 0 <= t < j && origin[t] == k && errs[t] == Ok;
      SuffixStored(z, logs0, logs, Part(msgs, origin), errs, ended, t);
    }
  }

  lemma SuffixStored(z: Zone, logs0: Logs, logs: Logs, part: seq<Delivery>, errs: seq<Outcome>, ended: bool, t: nat)
    requires AllDecoded(part) && PartVerdicts(z, logs0, logs, Messages(part), errs, ended) && t < |part| && errs[t] == Ok
    ensures Kept(z, logs, part[t])
  {
    var m := Messages(part)[t];
    assert MessageVerdict(z, errs[t], m, logs0, logs, ended);
    var log := LogOf(logs, m.ecId);
    var from := |LogOf(logs0, m.ecId)|;
    forall b | b in BlocksOf(z, m) ensures Done(b.point, b.energy) in log {
      var i :| 0 <= i < |log[from..]| && log[from..][i] == Done(b.point, b.energy);
      assert log[from + i] == log[from..][i];
    }
  }
}
