/** The importer of one tenant: its stores by community, ImportBatch over all of them
    (mqttclient/importBatch.go, ensureDb in mqttclient/energyExecutor.go). */
module TenantImporter {
  import opened Calendar
  import opened Rows
  import opened StoreSpec
  import opened DayBatch
  import opened Storage
  import opened Runs
  import opened ImportSpec
  import opened Outcomes
  import opened Importer
  import opened ImportBatch
  import opened World
  import opened Seqs

  // ----- message by message, over all communities -----

  type Disk = map<string, Db>
  type Logs = map<string, seq<Attempt>>

  /** The content of a community's store; a store never opened is empty. */
  function DbOf(disk: Disk, ecId: string): Db {
    if ecId in disk then disk[ecId] else Db(map[], map[])
  }

  function LogOf(logs: Logs, ecId: string): seq<Attempt> {
    if ecId in logs then logs[ecId] else []
  }

  /** Import of one message. */
  ghost function ImportStep(z: Zone, disk: Disk, m: Message): Disk {
    disk[m.ecId := StoreAll(z, DbOf(disk, m.ecId), BlocksOf(z, m))]
  }

  /** Import of the messages in the given order. */
  ghost function ImportAll(z: Zone, disk: Disk, msgs: seq<Message>): Disk {
    if msgs == [] then disk
    else ImportStep(z, ImportAll(z, disk, msgs[..|msgs| - 1]), msgs[|msgs| - 1])
  }

  /** The places of a community's messages, in order. */
  function IdxOf(msgs: seq<Message>, ecId: string): (r: seq<nat>)
    ensures InRange(msgs, r)
  {
    if msgs == [] then []
    else
      var n := |msgs| - 1;
      IdxOf(msgs[..n], ecId) + if msgs[n].ecId == ecId then [n] else []
  }

  lemma {:induction false} IdxOfHolds(msgs: seq<Message>, ecId: string, i: nat)
    requires i < |msgs|
    ensures i in IdxOf(msgs, ecId) <==> msgs[i].ecId == ecId
    decreases |msgs|
  {
    var n := |msgs| - 1;
    if i < n {
      IdxOfHolds(msgs[..n], ecId, i);
    } else {
      assert n !in IdxOf(msgs[..n], ecId);
    }
  }

  lemma {:induction false} AllBlocksPrefix(z: Zone, msgs: seq<Message>, n: nat, idx: seq<nat>)
    requires n <= |msgs| && InRange(msgs[..n], idx)
    ensures InRange(msgs, idx) && AllBlocks(z, msgs[..n], idx) == AllBlocks(z, msgs, idx)
    decreases |idx|
  {
    if idx != [] {
      AllBlocksPrefix(z, msgs, n, idx[1..]);
    }
  }

  lemma ImportOneMore(z: Zone, db: Db, msgs: seq<Message>, idx: seq<nat>, n: nat)
    requires InRange(msgs, idx) && n < |msgs|
    ensures InRange(msgs, idx + [n])
    ensures StoreAll(z, db, AllBlocks(z, msgs, idx + [n])) == StoreAll(z, StoreAll(z, db, AllBlocks(z, msgs, idx)), BlocksOf(z, msgs[n]))
  {
    AllBlocksConcat(z, msgs, idx, [n]);
    assert [n][1..] == [];
    assert AllBlocks(z, msgs, [n]) == BlocksOf(z, msgs[n]);
    StoreAllConcat(z, db, AllBlocks(z, msgs, idx), BlocksOf(z, msgs[n]));
  }

  /** Import message by message leaves in every store the blocks of its messages, in their order. */
  lemma {:induction false} ImportAllByEcId(z: Zone, disk: Disk, msgs: seq<Message>, ecId: string)
    ensures DbOf(ImportAll(z, disk, msgs), ecId) == StoreAll(z, DbOf(disk, ecId), AllBlocks(z, msgs, IdxOf(msgs, ecId)))
    decreases |msgs|
  {
    if msgs != [] {
      var n := |msgs| - 1;
      var idx := IdxOf(msgs[..n], ecId);
      ImportAllByEcId(z, disk, msgs[..n], ecId);
      AllBlocksPrefix(z, msgs, n, idx);
      if msgs[n].ecId == ecId {
        ImportOneMore(z, DbOf(disk, ecId), msgs, idx, n);
      } else {
        assert idx + [] == idx;
      }
    }
  }

  /** One of the messages is for the community. */
  ghost predicate Named(msgs: seq<Message>, ecId: string) {
    exists i :: 0 <= i < |msgs| && msgs[i].ecId == ecId
  }

  lemma NamedLast(msgs: seq<Message>, ecId: string)
    requires msgs != []
    ensures Named(msgs, ecId) <==> Named(msgs[..|msgs| - 1], ecId) || msgs[|msgs| - 1].ecId == ecId
  {
    var init := msgs[..|msgs| - 1];
    assert forall i :: 0 <= i < |init| ==> init[i] == msgs[i];
  }

  lemma {:induction false} ImportAllKeys(z: Zone, disk: Disk, msgs: seq<Message>, ecId: string)
    ensures ecId in ImportAll(z, disk, msgs) <==> ecId in disk || Named(msgs, ecId)
    decreases |msgs|
  {
    if msgs != [] {
      ImportAllKeys(z, disk, msgs[..|msgs| - 1], ecId);
      ImportAllKey(z, disk, msgs);
      NamedLast(msgs, ecId);
    }
  }

  lemma ImportAllKey(z: Zone, disk: Disk, msgs: seq<Message>)
    requires msgs != []
    ensures ImportAll(z, disk, msgs).Keys == ImportAll(z, disk, msgs[..|msgs| - 1]).Keys + {msgs[|msgs| - 1].ecId}
  {
  }

  // ----- grouping by community -----

  /** The communities of the groups, each once. */
  ghost predicate Listed(ecIds: seq<string>, groups: map<string, seq<nat>>) {
    && (forall e :: e in ecIds <==> e in groups)
    && (forall i, j :: 0 <= i < j < |ecIds| ==> ecIds[i] != ecIds[j])
  }

  /** Every group holds the places of its community's messages, and every message has a group. */
  ghost predicate GroupsAre(msgs: seq<Message>, groups: map<string, seq<nat>>) {
    && (forall e :: e in groups ==> groups[e] == IdxOf(msgs, e) != [])
    && (forall i :: 0 <= i < |msgs| ==> msgs[i].ecId in groups)
  }

  ghost predicate Groups(msgs: seq<Message>, ecIds: seq<string>, groups: map<string, seq<nat>>) {
    Listed(ecIds, groups) && GroupsAre(msgs, groups)
  }

  lemma {:induction false} IdxOfNone(msgs: seq<Message>, ecId: string)
    requires forall i :: 0 <= i < |msgs| ==> msgs[i].ecId != ecId
    ensures IdxOf(msgs, ecId) == []
  {
    if msgs != [] {
      IdxOfNone(msgs[..|msgs| - 1], ecId);
    }
  }

  lemma IdxOfNext(msgs: seq<Message>, n: nat, ecId: string)
    requires n < |msgs|
    ensures IdxOf(msgs[..n + 1], ecId) == if msgs[n].ecId == ecId then IdxOf(msgs[..n], ecId) + [n] else IdxOf(msgs[..n], ecId)
  {
    assert msgs[..n + 1][..n] == msgs[..n];
    assert IdxOf(msgs[..n], ecId) + [] == IdxOf(msgs[..n], ecId);
  }

  lemma ListedMore(ecIds: seq<string>, groups: map<string, seq<nat>>, e: string, idx: seq<nat>)
    requires Listed(ecIds, groups)
    ensures Listed(if e in groups then ecIds else ecIds + [e], groups[e := idx])
  {
  }

  lemma GroupsMore(msgs: seq<Message>, n: nat, groups: map<string, seq<nat>>)
    requires n < |msgs| && GroupsAre(msgs[..n], groups)
    ensures var e := msgs[n].ecId; GroupsAre(msgs[..n + 1], groups[e := (if e in groups then groups[e] else []) + [n]])
  {
    var e := msgs[n].ecId;
    var init, next := msgs[..n], msgs[..n + 1];
    var idx := (if e in groups then groups[e] else []) + [n];
    assert forall i :: 0 <= i < n ==> next[i] == init[i];
    assert next[n] == msgs[n];
    if e !in groups {
      assert forall i :: 0 <= i < n ==> init[i].ecId in groups;
      IdxOfNone(init, e);
    }
    forall f | f in groups[e := idx] ensures groups[e := idx][f] == IdxOf(next, f) != [] {
      IdxOfNext(msgs, n, f);
    }
  }

  lemma GroupsHold(msgs: seq<Message>, ecIds: seq<string>, groups: map<string, seq<nat>>)
    requires Groups(msgs, ecIds, groups)
    ensures forall e :: e in ecIds <==> exists i :: 0 <= i < |msgs| && msgs[i].ecId == e
  {
    forall e | e in ecIds ensures exists i :: 0 <= i < |msgs| && msgs[i].ecId == e {
      var i := groups[e][0];
      assert i in IdxOf(msgs, e);
      IdxOfHolds(msgs, e, i);
    }
  }

  method GroupByEcId(msgs: seq<Message>) returns (ecIds: seq<string>, groups: map<string, seq<nat>>)
    ensures Groups(msgs, ecIds, groups)
  {
    ecIds, groups := [], map[];
    for n := 0 to |msgs|
      invariant Groups(msgs[..n], ecIds, groups)
    {
      var e := msgs[n].ecId;
      GroupsMore(msgs, n, groups);
      ListedMore(ecIds, groups, e, (if e in groups then groups[e] else []) + [n]);
      if e !in groups {
        ecIds := ecIds + [e];
      }
      groups := groups[e := (if e in groups then groups[e] else []) + [n]];
    }
    assert msgs[..|msgs|] == msgs;
  }

  // ----- the importer -----

  /** The verdict of a message against the log of its store. */
  ghost predicate MessageVerdict(z: Zone, out: Outcome, m: Message, logs0: Logs, logs: Logs, ended: bool) {
    LogOf(logs0, m.ecId) <= LogOf(logs, m.ecId) && Verdict(z, out, m, LogOf(logs, m.ecId)[|LogOf(logs0, m.ecId)|..], ended)
  }

  ghost predicate LogsGrow(logs0: Logs, logs: Logs) {
    forall e :: LogOf(logs0, e) <= LogOf(logs, e)
  }

  ghost predicate SameLogs(logs0: Logs, logs: Logs) {
    forall e :: LogOf(logs0, e) == LogOf(logs, e)
  }

  lemma LogsGrowTwice(a: Logs, b: Logs, c: Logs)
    requires LogsGrow(a, b) && LogsGrow(b, c)
    ensures LogsGrow(a, c)
  {
    forall e ensures LogOf(a, e) <= LogOf(c, e) {
      assert LogOf(a, e) <= LogOf(b, e) && LogOf(b, e) <= LogOf(c, e);
    }
  }

  /** The community e, of which the messages idx were imported: their verdicts, and in a calm run what
      message by message import leaves. */
  ghost predicate EcDone(z: Zone, msgs: seq<Message>, e: string, idx: seq<nat>, disk0: Disk, disk: Disk, logs0: Logs, logs: Logs,
                         errs: seq<Outcome>, ended: bool, faults: int)
  {
    && LogOf(logs0, e) <= LogOf(logs, e)
    && Verdicts(z, errs, msgs, idx, LogOf(logs, e)[|LogOf(logs0, e)|..], ended)
    && Blamed(errs, idx, faults, LogOf(logs, e)[|LogOf(logs0, e)|..])
    && (faults == 0 && !ended ==> e in disk && Imported(z, DbOf(disk, e), DbOf(disk0, e), errs, msgs, idx))
  }

  /** The community e is as it was. */
  ghost predicate EcSame(e: string, disk0: Disk, disk: Disk, logs0: Logs, logs: Logs) {
    && (e in disk <==> e in disk0)
    && DbOf(disk, e) == DbOf(disk0, e)
    && LogOf(logs, e) == LogOf(logs0, e)
  }

  /** Every community but f is as it was. */
  ghost predicate OthersSame(f: string, disk0: Disk, disk: Disk, logs0: Logs, logs: Logs) {
    forall e :: e != f ==> EcSame(e, disk0, disk, logs0, logs)
  }

  /** The messages idx of the community are imported: no other outcome and no other community changes. */
  ghost predicate EcImported(z: Zone, msgs: seq<Message>, e: string, idx: seq<nat>, disk0: Disk, disk: Disk, logs0: Logs, logs: Logs,
                             errs: seq<Outcome>, errs': seq<Outcome>, ended: bool, faults: int)
  {
    && Only(errs, errs', idx)
    && OthersSame(e, disk0, disk, logs0, logs)
    && EcDone(z, msgs, e, idx, disk0, disk, logs0, logs, errs', ended, faults)
  }

  lemma OthersSameTwice(f: string, disk0: Disk, disk: Disk, disk': Disk, logs0: Logs, logs: Logs, logs': Logs)
    requires OthersSame(f, disk0, disk, logs0, logs) && OthersSame(f, disk, disk', logs, logs')
    ensures OthersSame(f, disk0, disk', logs0, logs')
  {
    forall e | e != f ensures EcSame(e, disk0, disk', logs0, logs') {
      assert EcSame(e, disk0, disk, logs0, logs) && EcSame(e, disk, disk', logs, logs');
    }
  }

  ghost predicate Progress(z: Zone, msgs: seq<Message>, done: seq<string>, disk0: Disk, disk: Disk, logs0: Logs, logs: Logs,
                           errs: seq<Outcome>, ended: bool, faults: int)
  {
    && |errs| == |msgs|
    && (forall e :: e in done ==> EcDone(z, msgs, e, IdxOf(msgs, e), disk0, disk, logs0, logs, errs, ended, faults))
    && (forall e :: e !in done ==> EcSame(e, disk0, disk, logs0, logs))
  }

  /** Progress after so many faults. */
  ghost predicate Stage(z: Zone, msgs: seq<Message>, done: seq<string>, disk0: Disk, disk: Disk, logs0: Logs, logs: Logs,
                        errs: seq<Outcome>, ended: bool, faults: int)
  {
    0 <= faults && Progress(z, msgs, done, disk0, disk, logs0, logs, errs, ended, faults)
  }

  /** The outcomes of other communities do not matter. */
  lemma EcDoneLater(z: Zone, msgs: seq<Message>, e: string, f: string, disk0: Disk, disk: Disk, disk': Disk, logs0: Logs, logs: Logs, logs': Logs,
                    errs: seq<Outcome>, errs': seq<Outcome>, ended: bool, ended': bool, faults: int, faults': int)
    requires EcDone(z, msgs, e, IdxOf(msgs, e), disk0, disk, logs0, logs, errs, ended, faults)
    requires EcSame(e, disk, disk', logs, logs') && e != f && |errs| == |msgs| && Only(errs, errs', IdxOf(msgs, f))
    requires (ended ==> ended') && faults <= faults'
    ensures EcDone(z, msgs, e, IdxOf(msgs, e), disk0, disk', logs0, logs', errs', ended', faults')
  {
    var idx := IdxOf(msgs, e);
    var log := LogOf(logs, e)[|LogOf(logs0, e)|..];
    VerdictsLater(z, errs, msgs, idx, log, ended, log, ended');
    forall r | 0 <= r < |idx| ensures errs'[idx[r]] == errs[idx[r]] {
      IdxOfHolds(msgs, e, idx[r]);
      IdxOfHolds(msgs, f, idx[r]);
    }
    assert FailedSet(errs', idx) == FailedSet(errs, idx);
  }

  lemma ProgressNext(z: Zone, msgs: seq<Message>, done: seq<string>, f: string, disk0: Disk, disk: Disk, disk': Disk,
                     logs0: Logs, logs: Logs, logs': Logs, errs: seq<Outcome>, errs': seq<Outcome>, ended: bool, ended': bool, faults: int, faults': int)
    requires Progress(z, msgs, done, disk0, disk, logs0, logs, errs, ended, faults) && f !in done
    requires EcDone(z, msgs, f, IdxOf(msgs, f), disk, disk', logs, logs', errs', ended', faults')
    requires OthersSame(f, disk, disk', logs, logs')
    requires Only(errs, errs', IdxOf(msgs, f)) && (ended ==> ended') && faults <= faults'
    ensures Progress(z, msgs, done + [f], disk0, disk', logs0, logs', errs', ended', faults')
  {
    forall e | e in done ensures EcDone(z, msgs, e, IdxOf(msgs, e), disk0, disk', logs0, logs', errs', ended', faults') {
      EcDoneLater(z, msgs, e, f, disk0, disk, disk', logs0, logs, logs', errs, errs', ended, ended', faults, faults');
    }
    EcDoneFirst(z, msgs, f, IdxOf(msgs, f), disk0, disk, disk', logs0, logs, logs', errs', ended', faults');
    forall e | e !in done + [f] ensures EcSame(e, disk0, disk', logs0, logs') {
      assert EcSame(e, disk0, disk, logs0, logs) && EcSame(e, disk, disk', logs, logs');
    }
  }

  lemma EcDoneFirst(z: Zone, msgs: seq<Message>, f: string, idx: seq<nat>, disk0: Disk, disk: Disk, disk': Disk,
                    logs0: Logs, logs: Logs, logs': Logs, errs: seq<Outcome>, ended: bool, faults: int)
    requires EcDone(z, msgs, f, idx, disk, disk', logs, logs', errs, ended, faults) && EcSame(f, disk0, disk, logs0, logs)
    ensures EcDone(z, msgs, f, idx, disk0, disk', logs0, logs', errs, ended, faults)
  {
  }

  /** Every message has its verdict. */
  lemma ProgressVerdict(z: Zone, msgs: seq<Message>, done: seq<string>, disk0: Disk, disk: Disk, logs0: Logs, logs: Logs,
                        errs: seq<Outcome>, ended: bool, faults: int, i: nat)
    requires Progress(z, msgs, done, disk0, disk, logs0, logs, errs, ended, faults) && i < |msgs| && msgs[i].ecId in done
    ensures MessageVerdict(z, errs[i], msgs[i], logs0, logs, ended)
    ensures faults == 0 && !ended ==> errs[i] == Ok
  {
    var e := msgs[i].ecId;
    IdxOfHolds(msgs, e, i);
    var r :| 0 <= r < |IdxOf(msgs, e)| && IdxOf(msgs, e)[r] == i;
    assert EcDone(z, msgs, e, IdxOf(msgs, e), disk0, disk, logs0, logs, errs, ended, faults);
  }

  lemma ProgressBlamed(z: Zone, msgs: seq<Message>, done: seq<string>, disk0: Disk, disk: Disk, logs0: Logs, logs: Logs,
                       errs: seq<Outcome>, ended: bool, faults: int, e: string)
    requires Progress(z, msgs, done, disk0, disk, logs0, logs, errs, ended, faults) && 0 <= faults
    requires e in done <==> exists i :: 0 <= i < |msgs| && msgs[i].ecId == e
    ensures LogOf(logs0, e) <= LogOf(logs, e) && Blamed(errs, IdxOf(msgs, e), faults, LogOf(logs, e)[|LogOf(logs0, e)|..])
  {
    if e in done {
      assert EcDone(z, msgs, e, IdxOf(msgs, e), disk0, disk, logs0, logs, errs, ended, faults);
    } else {
      IdxOfNone(msgs, e);
      assert EcSame(e, disk0, disk, logs0, logs);
      assert LogOf(logs, e)[|LogOf(logs0, e)|..] == [];
      NoneFailed(errs, []);
    }
  }

  /** A batch of messages was imported: one verdict each, logs that grow, and in a calm batch all stored and
      the stores as message by message import leaves them. */
  ghost predicate BatchImported(z: Zone, msgs: seq<Message>, errs: seq<Outcome>, disk0: Disk, disk: Disk, logs0: Logs, logs: Logs, ended: bool, faults: int) {
    && |errs| == |msgs| && LogsGrow(logs0, logs)
    && (forall i :: 0 <= i < |msgs| ==> MessageVerdict(z, errs[i], msgs[i], logs0, logs, ended))
    && (forall e :: Blamed(errs, IdxOf(msgs, e), faults, LogOf(logs, e)[|LogOf(logs0, e)|..]))
    && (faults == 0 && !ended ==> forall i :: 0 <= i < |msgs| ==> errs[i] == Ok)
    && (faults == 0 && !ended && AllDaily(z, msgs) ==> SameImport(z, disk, ImportAll(z, disk0, msgs), msgs))
  }

  /** All communities done: every message has its verdict, and a calm batch is message by message import. */
  lemma ProgressAll(z: Zone, msgs: seq<Message>, ecIds: seq<string>, groups: map<string, seq<nat>>, disk0: Disk, disk: Disk,
                    logs0: Logs, logs: Logs, errs: seq<Outcome>, ended: bool, faults: int)
    requires Groups(msgs, ecIds, groups) && Stage(z, msgs, ecIds, disk0, disk, logs0, logs, errs, ended, faults)
    ensures BatchImported(z, msgs, errs, disk0, disk, logs0, logs, ended, faults)
  {
    GroupsHold(msgs, ecIds, groups);
    forall e ensures Blamed(errs, IdxOf(msgs, e), faults, LogOf(logs, e)[|LogOf(logs0, e)|..]) {
      ProgressBlamed(z, msgs, ecIds, disk0, disk, logs0, logs, errs, ended, faults, e);
    }
    forall e ensures LogOf(logs0, e) <= LogOf(logs, e) {
      assert e in ecIds ==> EcDone(z, msgs, e, IdxOf(msgs, e), disk0, disk, logs0, logs, errs, ended, faults);
      assert e !in ecIds ==> EcSame(e, disk0, disk, logs0, logs);
    }
    forall i | 0 <= i < |msgs| ensures MessageVerdict(z, errs[i], msgs[i], logs0, logs, ended) && (faults == 0 && !ended ==> errs[i] == Ok) {
      ProgressVerdict(z, msgs, ecIds, disk0, disk, logs0, logs, errs, ended, faults, i);
    }
    if faults == 0 && !ended && AllDaily(z, msgs) {
      ProgressEnd(z, msgs, ecIds, disk0, disk, logs0, logs, errs, ended);
    }
  }

  ghost predicate AllCoded(z: Zone, msgs: seq<Message>) {
    forall i :: 0 <= i < |msgs| ==> forall b :: b in BlocksOf(z, msgs[i]) ==> Coded(b)
  }

  /** Every day block of the messages starts, ends and has its values on one day. */
  ghost predicate AllDaily(z: Zone, msgs: seq<Message>) {
    forall i :: 0 <= i < |msgs| ==> Daily(z, BlocksOf(z, msgs[i]))
  }

  /** Periods that end at a midnight or at least a quarter hour after one give such blocks. */
  lemma RegularBatch(z: Zone, msgs: seq<Message>)
    requires z.Valid() && forall i :: 0 <= i < |msgs| ==> RegularMessage(z, msgs[i])
    ensures AllDaily(z, msgs)
  {
    forall i | 0 <= i < |msgs| ensures Daily(z, BlocksOf(z, msgs[i])) {
      RegularIsDaily(z, msgs[i]);
    }
  }

  lemma {:induction false} BlockOfSome(z: Zone, msgs: seq<Message>, idx: seq<nat>, b: Block)
    requires InRange(msgs, idx) && b in AllBlocks(z, msgs, idx)
    ensures exists i :: 0 <= i < |msgs| && b in BlocksOf(z, msgs[i])
    decreases |idx|
  {
    if b !in BlocksOf(z, msgs[idx[0]]) {
      BlockOfSome(z, msgs, idx[1..], b);
    }
  }

  /** The same communities, each with the same record and the same rows once read back. */
  ghost predicate LikeDisk(a: Disk, b: Disk) {
    a.Keys == b.Keys && forall e :: e in a ==> Like(a[e], b[e])
  }

  /** The stores read as those of target, and are those if all blocks carry stored codes. */
  ghost predicate SameImport(z: Zone, disk: Disk, target: Disk, msgs: seq<Message>) {
    LikeDisk(disk, target) && (AllCoded(z, msgs) ==> disk == target)
  }

  /** A calm batch leaves on every store what message by message import leaves. */
  lemma ProgressEnd(z: Zone, msgs: seq<Message>, done: seq<string>, disk0: Disk, disk: Disk, logs0: Logs, logs: Logs,
                    errs: seq<Outcome>, ended: bool)
    requires Progress(z, msgs, done, disk0, disk, logs0, logs, errs, ended, 0) && !ended
    requires forall e :: e in done <==> exists i :: 0 <= i < |msgs| && msgs[i].ecId == e
    requires AllDaily(z, msgs)
    ensures SameImport(z, disk, ImportAll(z, disk0, msgs), msgs)
  {
    var all := ImportAll(z, disk0, msgs);
    forall e ensures SameStore(z, disk, all, msgs, e) {
      ProgressEc(z, msgs, done, disk0, disk, logs0, logs, errs, ended, e);
    }
    SameStores(z, disk, all, msgs);
  }

  ghost predicate SameStore(z: Zone, disk: Disk, all: Disk, msgs: seq<Message>, e: string) {
    && (e in disk <==> e in all)
    && Like(DbOf(disk, e), DbOf(all, e))
    && (AllCoded(z, msgs) ==> DbOf(disk, e) == DbOf(all, e))
  }

  lemma SameStores(z: Zone, disk: Disk, all: Disk, msgs: seq<Message>)
    requires forall e :: SameStore(z, disk, all, msgs, e)
    ensures SameImport(z, disk, all, msgs)
  {
    forall e ensures e in disk.Keys <==> e in all.Keys {
      assert SameStore(z, disk, all, msgs, e);
    }
    forall e | e in disk ensures Like(disk[e], all[e]) && (AllCoded(z, msgs) ==> disk[e] == all[e]) {
      assert SameStore(z, disk, all, msgs, e);
    }
  }

  lemma ProgressEc(z: Zone, msgs: seq<Message>, done: seq<string>, disk0: Disk, disk: Disk, logs0: Logs, logs: Logs,
                   errs: seq<Outcome>, ended: bool, e: string)
    requires Progress(z, msgs, done, disk0, disk, logs0, logs, errs, ended, 0) && !ended
    requires e in done <==> exists i :: 0 <= i < |msgs| && msgs[i].ecId == e
    requires AllDaily(z, msgs)
    ensures SameStore(z, disk, ImportAll(z, disk0, msgs), msgs, e)
  {
    ImportAllByEcId(z, disk0, msgs, e);
    ImportAllKeys(z, disk0, msgs, e);
    if e in done {
      assert EcDone(z, msgs, e, IdxOf(msgs, e), disk0, disk, logs0, logs, errs, ended, 0);
      GroupLands(z, msgs, IdxOf(msgs, e), DbOf(disk, e), DbOf(disk0, e), errs);
    } else {
      IdxOfNone(msgs, e);
      assert EcSame(e, disk0, disk, logs0, logs);
    }
  }

  lemma GroupLands(z: Zone, msgs: seq<Message>, idx: seq<nat>, db: Db, db0: Db, errs: seq<Outcome>)
    requires Imported(z, db, db0, errs, msgs, idx) && AllDaily(z, msgs)
    ensures Like(db, StoreAll(z, db0, AllBlocks(z, msgs, idx)))
    ensures AllCoded(z, msgs) ==> db == StoreAll(z, db0, AllBlocks(z, msgs, idx))
  {
    forall b | b in AllBlocks(z, msgs, idx) ensures OnDay(z, b, z.day(b.energy.start)) && (AllCoded(z, msgs) ==> Coded(b)) {
      BlockOfSome(z, msgs, idx, b);
      var i :| 0 <= i < |msgs| && b in BlocksOf(z, msgs[i]);
      assert Daily(z, BlocksOf(z, msgs[i]));
    }
  }

  /** The stores of one tenant: those open, and the content of the others on disk. */
  class TenantEnergyImporter {
    const z: Zone
    const disk: Disk
    var stores: map<string, BowStorage>
    ghost var marks: map<string, seq<Attempt>>   // the history of communities that could not be opened yet

    constructor (z: Zone, disk: Disk)
      requires z.Valid()
      ensures this.z == z && Valid() && Content() == disk && Log() == map[] && Repr() == {}
    {
      this.z, this.disk := z, disk;
      stores, marks := map[], map[];
    }

    ghost predicate Valid()
      reads this
    {
      && z.Valid()
      && (forall e :: e in stores ==> stores[e].z == z)
      && (forall e, f :: e in stores && f in stores && e != f ==> stores[e] != stores[f])
    }

    ghost function Repr(): set<BowStorage>
      reads this
    {
      set e | e in stores :: stores[e]
    }

    ghost function Content(): Disk
      reads this, Repr()
    {
      map e | e in disk.Keys + stores.Keys :: if e in stores then stores[e].Db() else disk[e]
    }

    ghost function Log(): Logs
      reads this, Repr()
    {
      map e | e in stores.Keys + marks.Keys :: if e in stores then stores[e].log else marks[e]
    }

    /** ensureDb: the open store of the community, opened on demand; opening may fail. */
    method EnsureDb(w: Context, ecId: string) returns (st: BowStorage?)
      requires Valid()
      modifies this`stores, this`marks, w
      ensures Valid() && fresh(Repr() - old(Repr()))
      ensures old(w.ended) ==> w.ended
      ensures w.faults == old(w.faults) + if st == null then 1 else 0
      ensures st != null ==> ecId in stores && stores[ecId] == st && st.Db() == DbOf(old(Content()), ecId) && st.log == LogOf(old(Log()), ecId)
      ensures OthersSame(ecId, old(Content()), Content(), old(Log()), Log())
      ensures st == null ==> Content() == old(Content()) && LogOf(Log(), ecId) == LogOf(old(Log()), ecId) + [Unopened]
      ensures st != null ==> LogOf(Log(), ecId) == st.log && DbOf(Content(), ecId) == st.Db()
    {
      if ecId in stores {
        return stores[ecId];
      }
      st := OpenDb(w, ecId);
    }

    method OpenDb(w: Context, ecId: string) returns (st: BowStorage?)
      requires Valid() && ecId !in stores
      modifies this`stores, this`marks, w
      ensures Valid() && fresh(Repr() - old(Repr()))
      ensures old(w.ended) ==> w.ended
      ensures w.faults == old(w.faults) + if st == null then 1 else 0
      ensures st != null ==> ecId in stores && stores[ecId] == st && st.Db() == DbOf(old(Content()), ecId) && st.log == LogOf(old(Log()), ecId)
      ensures OthersSame(ecId, old(Content()), Content(), old(Log()), Log())
      ensures st == null ==> Content() == old(Content()) && LogOf(Log(), ecId) == LogOf(old(Log()), ecId) + [Unopened]
    {
      var failed := w.Fails(Opening);
      if failed {
        NoteUnopened(ecId);
        return null;
      }
      st := OpenStore(ecId);
    }

    /** The history of a store that could not be opened. */
    method NoteUnopened(ecId: string)
      requires Valid() && ecId !in stores
      modifies this`marks
      ensures Valid() && stores == old(stores) && Content() == old(Content())
      ensures Log() == old(Log())[ecId := LogOf(old(Log()), ecId) + [Unopened]]
    {
      ghost var logs0, log := Log(), LogOf(Log(), ecId) + [Unopened];
      marks := marks[ecId := log];
      assert Log().Keys == logs0.Keys + {ecId};
      assert Log()[ecId] == log;
      assert forall e :: e in logs0 && e != ecId ==> Log()[e] == logs0[e];
    }

    method OpenStore(ecId: string) returns (st: BowStorage)
      requires Valid() && ecId !in stores
      modifies this`stores
      ensures Valid() && fresh(st) && Repr() <= old(Repr()) + {st}
      ensures ecId in stores && stores[ecId] == st && st.Db() == DbOf(old(Content()), ecId) && st.log == LogOf(old(Log()), ecId)
      ensures OthersSame(ecId, old(Content()), Content(), old(Log()), Log())
    {
      ghost var disk0, logs0 := Content(), Log();
      st := new BowStorage(z, if ecId in disk then disk[ecId] else Db(map[], map[]), LogOf(logs0, ecId));
      stores := stores[ecId := st];
      forall e | e != ecId ensures EcSame(e, disk0, Content(), logs0, Log()) {
        assert e in stores ==> stores[e] in old(Repr());
      }
    }

    /** A panic inside an import of the messages: any of their stores may have been opened, and open stores
        hold any rows and any record. */
    method Interrupt(msgs: seq<Message>)
      requires Valid()
      modifies this`stores, Repr()
      ensures Valid() && fresh(Repr() - old(Repr())) && SameLogs(old(Log()), Log())
    {
      for i := 0 to |msgs|
        invariant Valid() && fresh(Repr() - old(Repr())) && SameLogs(old(Log()), Log())
      {
        var opens := *;
        if opens && msgs[i].ecId !in stores {
          OpenLater(msgs[i].ecId, old(Log()));
        }
      }
      BreakAll();
    }

    method OpenLater(ecId: string, ghost logs0: Logs)
      requires Valid() && ecId !in stores && SameLogs(logs0, Log())
      modifies this`stores
      ensures Valid() && fresh(Repr() - old(Repr())) && SameLogs(logs0, Log())
    {
      ghost var logs := Log();
      var _ := OpenStore(ecId);
      forall e ensures LogOf(logs0, e) == LogOf(Log(), e) {
        assert e != ecId ==> EcSame(e, old(Content()), Content(), logs, Log());
      }
    }

    method BreakAll()
      requires Valid()
      modifies Repr()
      ensures Valid() && stores == old(stores) && Log() == old(Log())
    {
      var rest := stores.Keys;
      while rest != {}
        invariant rest <= stores.Keys && stores == old(stores)
        invariant forall e :: e in stores ==> stores[e].log == old(stores[e].log)
        decreases rest
      {
        var e :| e in rest;
        stores[e].Break();
        rest := rest - {e};
      }
    }

    /** The messages could not be stored: the store does not open. */
    method RefuseAll(msgs: seq<Message>, idx: seq<nat>, errs: seq<Outcome>) returns (errs': seq<Outcome>)
      requires InRange(msgs, idx) && |errs| == |msgs|
      ensures Only(errs, errs', idx) && Verdicts(z, errs', msgs, idx, [Unopened], false) && Blamed(errs', idx, 1, [Unopened])
    {
      errs' := errs;
      for r := 0 to |idx|
        invariant Only(errs, errs', idx)
        invariant forall j :: 0 <= j < r ==> errs'[idx[j]] == NotOpened
      {
        errs' := errs'[idx[r] := NotOpened];
      }
      NoneFailed(errs', idx);
      RefusalsNext([], Unopened);
      assert [] + [Unopened] == [Unopened];
    }

    /** The messages of a community whose store is open. */
    method ImportOpened(w: Context, ecId: string, st: BowStorage, msgs: seq<Message>, idx: seq<nat>, errs: seq<Outcome>) returns (errs': seq<Outcome>)
      requires Valid() && ecId in stores && stores[ecId] == st
      requires InRange(msgs, idx) && |errs| == |msgs|
      modifies w, st
      ensures Valid() && stores == old(stores)
      ensures old(w.ended) ==> w.ended
      ensures old(w.faults) <= w.faults
      ensures EcImported(z, msgs, ecId, idx, old(Content()), Content(), old(Log()), Log(), errs, errs', w.ended, w.faults - old(w.faults))
    {
      ghost var disk0, logs0 := Content(), Log();
      errs' := ImportRuns(w, st, msgs, idx, errs);
      forall e | e != ecId ensures EcSame(e, disk0, Content(), logs0, Log()) {
        assert e in stores ==> stores[e] != st;
      }
    }

    method OpenAndImport(w: Context, ecId: string, msgs: seq<Message>, idx: seq<nat>, errs: seq<Outcome>) returns (errs': seq<Outcome>)
      requires Valid() && InRange(msgs, idx) && |errs| == |msgs|
      modifies w, this`stores, this`marks, Repr()
      ensures Valid() && fresh(Repr() - old(Repr()))
      ensures old(w.ended) ==> w.ended
      ensures old(w.faults) <= w.faults
      ensures EcImported(z, msgs, ecId, idx, old(Content()), Content(), old(Log()), Log(), errs, errs', w.ended, w.faults - old(w.faults))
    {
      ghost var disk0, logs0 := Content(), Log();
      var st := EnsureDb(w, ecId);
      if st == null {
        errs' := RefuseAll(msgs, idx, errs);
        assert LogOf(Log(), ecId)[|LogOf(logs0, ecId)|..] == [Unopened];
        VerdictsLater(z, errs', msgs, idx, [Unopened], false, [Unopened], w.ended);
        return;
      }
      ghost var disk, logs := Content(), Log();
      errs' := ImportOpened(w, ecId, st, msgs, idx, errs);
      OthersSameTwice(ecId, disk0, disk, Content(), logs0, logs, Log());
    }

    /** The context has ended. */
    method Ended(w: Context) returns (r: bool)
      modifies w`ended
      ensures r == w.ended && (old(w.ended) ==> r)
      ensures Content() == old(Content()) && Log() == old(Log())
    {
      r := w.Ended();
    }

    /** importEcId: the messages of one community. */
    method ImportEcId(w: Context, ecId: string, msgs: seq<Message>, idx: seq<nat>, errs: seq<Outcome>) returns (errs': seq<Outcome>)
      requires Valid() && InRange(msgs, idx) && |errs| == |msgs|
      modifies w, this`stores, this`marks, Repr()
      ensures Valid() && fresh(Repr() - old(Repr()))
      ensures old(w.ended) ==> w.ended
      ensures old(w.faults) <= w.faults
      ensures EcImported(z, msgs, ecId, idx, old(Content()), Content(), old(Log()), Log(), errs, errs', w.ended, w.faults - old(w.faults))
    {
      ghost var logs0 := Log();
      var ended := Ended(w);
      if ended {
        errs' := StopAll(z, msgs, idx, errs);
        assert LogOf(logs0, ecId)[|LogOf(logs0, ecId)|..] == [];
        return;
      }
      errs' := OpenAndImport(w, ecId, msgs, idx, errs);
    }

    /** The communities done so far, since the stores held disk0 and logs0 and faults0 had failed. */
    ghost predicate Underway(w: Context, msgs: seq<Message>, done: seq<string>, errs: seq<Outcome>, disk0: Disk, logs0: Logs, faults0: nat)
      reads this, Repr(), w
    {
      && Valid() && faults0 <= w.faults
      && Stage(z, msgs, done, disk0, Content(), logs0, Log(), errs, w.ended, w.faults - faults0)
    }

    method ImportNextEcId(w: Context, msgs: seq<Message>, ghost done: seq<string>, ecId: string, idx: seq<nat>, errs: seq<Outcome>,
                          ghost disk0: Disk, ghost logs0: Logs, ghost faults0: nat)
      returns (errs': seq<Outcome>)
      requires idx == IdxOf(msgs, ecId) && ecId !in done && Underway(w, msgs, done, errs, disk0, logs0, faults0)
      modifies w, this`stores, this`marks, Repr()
      ensures fresh(Repr() - old(Repr()))
      ensures old(w.ended) ==> w.ended
      ensures Underway(w, msgs, done + [ecId], errs', disk0, logs0, faults0)
    {
      ghost var disk, logs, ended, faults := Content(), Log(), w.ended, w.faults;
      errs' := ImportEcId(w, ecId, msgs, idx, errs);
      ProgressStep(z, msgs, done, ecId, disk0, disk, Content(), logs0, logs, Log(), errs, errs', ended, w.ended, faults - faults0, w.faults - faults);
    }

    method ImportNth(w: Context, msgs: seq<Message>, ecIds: seq<string>, groups: map<string, seq<nat>>, n: nat, errs: seq<Outcome>,
                     ghost disk0: Disk, ghost logs0: Logs, ghost faults0: nat)
      returns (errs': seq<Outcome>)
      requires Groups(msgs, ecIds, groups) && n < |ecIds| && Underway(w, msgs, ecIds[..n], errs, disk0, logs0, faults0)
      modifies w, this`stores, this`marks, Repr()
      ensures fresh(Repr() - old(Repr()))
      ensures old(w.ended) ==> w.ended
      ensures Underway(w, msgs, ecIds[..n + 1], errs', disk0, logs0, faults0)
    {
      assert ecIds[n] in groups;
      Prefix(ecIds, n);
      errs' := ImportNextEcId(w, msgs, ecIds[..n], ecIds[n], groups[ecIds[n]], errs, disk0, logs0, faults0);
    }

    /** The communities one after the other. */
    method ImportEcIds(w: Context, msgs: seq<Message>, ecIds: seq<string>, groups: map<string, seq<nat>>, errs: seq<Outcome>,
                       ghost disk0: Disk, ghost logs0: Logs, ghost faults0: nat)
      returns (errs': seq<Outcome>)
      requires Groups(msgs, ecIds, groups) && Underway(w, msgs, [], errs, disk0, logs0, faults0)
      modifies w, this`stores, this`marks, Repr()
      ensures fresh(Repr() - old(Repr()))
      ensures old(w.ended) ==> w.ended
      ensures Underway(w, msgs, ecIds, errs', disk0, logs0, faults0)
    {
      errs' := errs;
      assert ecIds[..0] == [];
      for n := 0 to |ecIds|
        invariant fresh(Repr() - old(Repr()))
        invariant old(w.ended) ==> w.ended
        invariant Underway(w, msgs, ecIds[..n], errs', disk0, logs0, faults0)
      {
        errs' := ImportNth(w, msgs, ecIds, groups, n, errs', disk0, logs0, faults0);
      }
      assert ecIds[..|ecIds|] == ecIds;
    }

    /** ImportBatch: an outcome for every message. Without a stop or a failing store every message is
        stored, and the stores hold what importing message by message in the given order leaves. */
    method ImportBatch(w: Context, msgs: seq<Message>) returns (errs: seq<Outcome>)
      requires Valid()
      modifies w, this`stores, this`marks, Repr()
      ensures Valid() && fresh(Repr() - old(Repr()))
      ensures old(w.ended) ==> w.ended
      ensures old(w.faults) <= w.faults
      ensures |errs| == |msgs| && LogsGrow(old(Log()), Log())
      ensures forall i :: 0 <= i < |msgs| ==> MessageVerdict(z, errs[i], msgs[i], old(Log()), Log(), w.ended)
      ensures forall e :: Blamed(errs, IdxOf(msgs, e), w.faults - old(w.faults), LogOf(Log(), e)[|LogOf(old(Log()), e)|..])
      ensures w.faults == old(w.faults) && !w.ended ==> forall i :: 0 <= i < |msgs| ==> errs[i] == Ok
      ensures w.faults == old(w.faults) && !w.ended && AllDaily(z, msgs) ==> SameImport(z, Content(), ImportAll(z, old(Content()), msgs), msgs)
    {
      errs := ImportGroups(w, msgs, Content(), Log(), w.faults);
    }

    ghost predicate AllImported(w: Context, msgs: seq<Message>, errs: seq<Outcome>, disk0: Disk, logs0: Logs, faults0: nat)
      reads this, Repr(), w
    {
      BatchImported(z, msgs, errs, disk0, Content(), logs0, Log(), w.ended, w.faults - faults0)
    }

    /** The messages community by community. */
    method ImportGroups(w: Context, msgs: seq<Message>, ghost disk0: Disk, ghost logs0: Logs, ghost faults0: nat) returns (errs: seq<Outcome>)
      requires Valid() && disk0 == Content() && logs0 == Log() && faults0 == w.faults
      modifies w, this`stores, this`marks, Repr()
      ensures Valid() && fresh(Repr() - old(Repr()))
      ensures old(w.ended) ==> w.ended
      ensures faults0 <= w.faults
      ensures AllImported(w, msgs, errs, disk0, logs0, faults0)
    {
      var ecIds, groups := GroupByEcId(msgs);
      errs := seq(|msgs|, _ => Ok);
      BeforeFirst(w, msgs, errs);
      errs := ImportGrouped(w, msgs, ecIds, groups, errs, disk0, logs0, faults0);
    }

    lemma BeforeFirst(w: Context, msgs: seq<Message>, errs: seq<Outcome>)
      requires Valid() && |errs| == |msgs|
      ensures Underway(w, msgs, [], errs, Content(), Log(), w.faults)
    {
      ProgressStart(z, msgs, Content(), Log(), errs, w.ended);
    }

    method ImportGrouped(w: Context, msgs: seq<Message>, ecIds: seq<string>, groups: map<string, seq<nat>>, errs: seq<Outcome>, ghost disk0: Disk, ghost logs0: Logs, ghost faults0: nat)
      returns (errs': seq<Outcome>)
      requires Groups(msgs, ecIds, groups) && Underway(w, msgs, [], errs, disk0, logs0, faults0)
      modifies w, this`stores, this`marks, Repr()
      ensures Valid() && fresh(Repr() - old(Repr()))
      ensures old(w.ended) ==> w.ended
      ensures faults0 <= w.faults
      ensures AllImported(w, msgs, errs', disk0, logs0, faults0)
    {
      errs' := ImportEcIds(w, msgs, ecIds, groups, errs, disk0, logs0, faults0);
      ProgressAll(z, msgs, ecIds, groups, disk0, Content(), logs0, Log(), errs', w.ended, w.faults - faults0);
    }
  }

  lemma ProgressStart(z: Zone, msgs: seq<Message>, disk: Disk, logs: Logs, errs: seq<Outcome>, ended: bool)
    requires |errs| == |msgs|
    ensures Stage(z, msgs, [], disk, disk, logs, logs, errs, ended, 0)
  {
  }

  /** The next community, with the faults that came meanwhile. */
  lemma ProgressStep(z: Zone, msgs: seq<Message>, done: seq<string>, f: string, disk0: Disk, disk: Disk, disk': Disk,
                     logs0: Logs, logs: Logs, logs': Logs, errs: seq<Outcome>, errs': seq<Outcome>, ended: bool, ended': bool, faults: int, more: nat)
    requires Stage(z, msgs, done, disk0, disk, logs0, logs, errs, ended, faults) && f !in done
    requires EcImported(z, msgs, f, IdxOf(msgs, f), disk, disk', logs, logs', errs, errs', ended', more) && (ended ==> ended')
    ensures Stage(z, msgs, done + [f], disk0, disk', logs0, logs', errs', ended', faults + more)
  {
    EcDoneCalm(z, msgs, f, IdxOf(msgs, f), disk, disk', logs, logs', errs', ended', more, faults + more);
    ProgressNext(z, msgs, done, f, disk0, disk, disk', logs0, logs, logs', errs, errs', ended, ended', faults, faults + more);
  }

  lemma EcDoneCalm(z: Zone, msgs: seq<Message>, e: string, idx: seq<nat>, disk0: Disk, disk: Disk, logs0: Logs, logs: Logs,
                   errs: seq<Outcome>, ended: bool, faults: int, faults': int)
    requires EcDone(z, msgs, e, idx, disk0, disk, logs0, logs, errs, ended, faults) && faults <= faults'
    ensures EcDone(z, msgs, e, idx, disk0, disk, logs0, logs, errs, ended, faults')
  {
  }
}
