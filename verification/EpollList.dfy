/** The kernel's epoll interest list beside the table: what it may report, what reporting does to it, and the
    agreement that every change made in full or not at all keeps. */
module EpollLists {
  import opened Vocabulary
  import opened Slots
  import opened MutationMachine
  import opened EpollTranslations

  /** What was asked for one descriptor, and whether it may still be reported. */
  datatype Listed = Listed(token: U64, interest: Interest, mode: Mode, enabled: bool)

  type InterestList = map<Descriptor, Listed>

  // ---------- Reporting ----------

  /** The wake can always be reported, and otherwise only what is listed and enabled. */
  predicate MayReport(list: InterestList, token: U64) {
    token == 0 || exists d | d in list :: list[d].token == token && list[d].enabled
  }

  /** Reporting a one-shot disables it until it is changed. */
  function Reported(list: InterestList, token: U64): InterestList {
    map d | d in list ::
      if list[d].token == token && list[d].mode == OneShot then list[d].(enabled := false) else list[d]
  }

  function ReportedUpTo(list: InterestList, records: seq<RawRecord>, n: nat): InterestList
    requires n <= |records|
  {
    if n == 0 then list else Reported(ReportedUpTo(list, records, n - 1), records[n - 1].token)
  }

  /** Each record is of something that could be reported when its turn came. */
  predicate Honest(list: InterestList, records: seq<RawRecord>, n: nat)
    requires n <= |records|
  {
    n > 0 ==> Honest(list, records, n - 1) && MayReport(ReportedUpTo(list, records, n - 1), records[n - 1].token)
  }

  // ---------- Agreement ----------

  function ListedAs(id: RegistrationId, entry: Entry): Listed {
    Listed(id, entry.interest, entry.mode, entry.state == ARMED)
  }

  /** Every live registration is proven and listed as the table says, and nothing else is listed. */
  ghost predicate ListAgrees(live: LiveMap, list: InterestList) {
    && (forall id | id in live ::
          && id != 0 && live[id].state.Registered? && live[id].descriptor in list
          && list[live[id].descriptor] == ListedAs(id, live[id]))
    && (forall d | d in list :: list[d].token in live && live[list[d].token].descriptor == d)
  }

  lemma {:induction false} AddKeepsAgreement(live: LiveMap, list: InterestList, id: RegistrationId, entry: Entry)
    requires ListAgrees(live, list) && id !in live && id != 0 && entry.descriptor !in list && entry.state == ARMED
    ensures ListAgrees(live[id := entry], list[entry.descriptor := ListedAs(id, entry)])
  {
  }

  lemma {:induction false} ChangeKeepsAgreement(live: LiveMap, list: InterestList, id: RegistrationId,
                                                interest: Interest, mode: Mode)
    requires ListAgrees(live, list) && id in live
    ensures ListAgrees(Modified(live, id, interest, mode, Applied),
                       list[live[id].descriptor := Listed(id, interest, mode, true)])
  {
    forall other | other in live && other != id ensures live[other].descriptor != live[id].descriptor {
      assert list[live[other].descriptor].token == other;
    }
  }

  lemma {:induction false} RemovalKeepsAgreement(live: LiveMap, list: InterestList, id: RegistrationId)
    requires ListAgrees(live, list) && id in live
    ensures ListAgrees(live - {id}, list - {live[id].descriptor})
  {
    forall other | other in live && other != id ensures live[other].descriptor != live[id].descriptor {
      assert list[live[other].descriptor].token == other;
    }
  }

  /** One record: what it fires was armed, and kernel and table disarm the same entry. */
  lemma {:induction false} RecordKeepsAgreement(live: LiveMap, list: InterestList, token: U64)
    requires ListAgrees(live, list) && MayReport(list, token)
    ensures Fires(live, token) ==> live[token].state == ARMED
    ensures ListAgrees(if Fires(live, token) then live[token := live[token].(state := DISARMED)] else live,
                       Reported(list, token))
  {
    if Fires(live, token) {
      var d :| d in list && list[d].token == token && list[d].enabled;
      assert list[d] == ListedAs(token, live[token]);
    }
    var later := if Fires(live, token) then live[token := live[token].(state := DISARMED)] else live;
    var after := Reported(list, token);
    forall id | id in later ensures after[later[id].descriptor] == ListedAs(id, later[id]) {
      assert list[live[id].descriptor] == ListedAs(id, live[id]);
    }
  }

  /** If the next record's one-shot is still armed when its turn comes, it was armed and unreported before. */
  lemma {:induction false} NextFires(live: LiveMap, records: seq<RawRecord>, n: nat)
    requires 0 < n <= |records| && FiresOnce(live, records, n - 1)
    requires var sofar, token := DisarmedBy(live, records, n - 1), records[n - 1].token;
             Fires(sofar, token) ==> sofar[token].state == ARMED
    ensures FiresOnce(live, records, n)
    ensures var sofar, token := DisarmedBy(live, records, n - 1), records[n - 1].token;
            DisarmedBy(live, records, n) == if Fires(sofar, token) then sofar[token := sofar[token].(state := DISARMED)]
                                            else sofar
  {
    var sofar, token := DisarmedBy(live, records, n - 1), records[n - 1].token;
    DisarmedSteps(live, records, n);
    assert Fires(sofar, token) <==> Fires(live, token);
    if Fires(live, token) { assert live[token].state == ARMED && !Seen(records, n - 1, token); }
  }

  /** An honest batch reports no one-shot while it is disarmed and none twice, so translation accepts it; and
      table and list agree again afterwards. */
  lemma {:induction false} HonestBatchFiresOnce(live: LiveMap, list: InterestList, records: seq<RawRecord>, n: nat)
    requires n <= |records| && ListAgrees(live, list) && Honest(list, records, n)
    ensures FiresOnce(live, records, n) && ListAgrees(DisarmedBy(live, records, n), ReportedUpTo(list, records, n))
  {
    if n == 0 {
      assert DisarmedBy(live, records, 0) == live;
    } else {
      HonestBatchFiresOnce(live, list, records, n - 1);
      var sofar, token := DisarmedBy(live, records, n - 1), records[n - 1].token;
      RecordKeepsAgreement(sofar, ReportedUpTo(list, records, n - 1), token);
      NextFires(live, records, n);
    }
  }
}
