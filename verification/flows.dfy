/** Properties of the conversation controller: what each handler does to
    the FSM and the worksheets, which handler an update reaches, the
    invariant every reachable snapshot keeps, and whole conversations. */
module Flows {
  import opened Sheets
  import opened Updates
  import opened Controller

  // ---------------------------------------------------------------------
  // Routing
  // ---------------------------------------------------------------------

  /** `/cancel` reaches `cancel` in every state (it is registered for any
      state, ahead of `process_reason`), and finishing leaves the
      worksheets untouched. */
  lemma CancelFromAnyState(s: Snapshot, botName: string, today: Date)
    requires ValidDate(today)
    ensures Route(s.state, Message("/cancel"), botName) == CancelHandler
    ensures Step(s, Message("/cancel"), botName, today) == Snapshot(Idle, map[], s.preds, s.praises)
  {
    CancelIsCommand(botName);
  }

  /** While waiting for a reason, `/start` is not a command the dispatcher
      honours: `start` has no state filter, so the text "/start" becomes
      the reason. */
  lemma StartWhileWaitingIsReason(botName: string)
    ensures Route(WaitingReason, Message("/start"), botName) == ProcessReasonHandler
  {
    StartIsCommand(botName);
  }

  /** While waiting for a reason, no button does anything: every callback
      handler lacks a state filter. Plain text while idle reaches nothing. */
  lemma IgnoredUpdates(button: string, text: string, botName: string)
    ensures Route(WaitingReason, Callback(button), botName) == NoHandler
    ensures !IsCommand(text, "start", botName) && !IsCommand(text, "cancel", botName)
            ==> Route(Idle, Message(text), botName) == NoHandler
  {
  }

  /** Every button `clan_list` shows reaches its intended handler: the
      button "member_" + m of any member m reaches `member_selected`, even
      when m is itself "back_menu" or "clan_list", and the closing button
      reaches `back_menu`. */
  lemma ClanListButtonsRoute(m: string, botName: string)
    ensures Route(Idle, Callback(MemberPrefix + m), botName) == MemberSelectedHandler
    ensures Route(Idle, Callback(BackMenuData), botName) == BackMenuHandler
  {
    var b := MemberPrefix + m;
    assert b[..|MemberPrefix|] == MemberPrefix;
    assert b[0] == 'm';
    assert b != BackMenuData && b != ClanListData;
  }

  // ---------------------------------------------------------------------
  // Handler effects
  // ---------------------------------------------------------------------

  /** `member_selected` stores exactly `m` when the button is the one
      `clan_list` built for `m` and `m` has no "member_" inside; the FSM
      state and both worksheets stay as they were. */
  lemma MemberSelectedStores(s: Snapshot, m: string, botName: string, today: Date)
    requires ValidDate(today)
    requires s.state == Idle
    ensures var t := Step(s, Callback(MemberPrefix + m), botName, today);
      && t.state == Idle && t.preds == s.preds && t.praises == s.praises
      && t.data.Keys == s.data.Keys + {MemberKey}
      && t.data[MemberKey] == DecodeMember(MemberPrefix + m)
      && (t.data[MemberKey] == m <==> !Contains(m, MemberPrefix))
      && forall k | k in s.data && k != MemberKey :: t.data[k] == s.data[k]
  {
    var b := MemberPrefix + m;
    assert b[..|MemberPrefix|] == MemberPrefix;
    assert b[0] == 'm';
    assert b != BackMenuData && b != ClanListData;
    MemberCallbackRoundTrip(m);
  }

  /** The two action buttons select "pred" and "praise"; the FSM waits for
      the reason and the worksheets stay as they were. */
  lemma ActionButtonsStore(s: Snapshot, botName: string, today: Date)
    requires ValidDate(today)
    requires s.state == Idle
    ensures var t := Step(s, Callback(ActionMenu[0]), botName, today);
      t == Snapshot(WaitingReason, s.data[ActionKey := "pred"], s.preds, s.praises)
    ensures var t := Step(s, Callback(ActionMenu[1]), botName, today);
      t == Snapshot(WaitingReason, s.data[ActionKey := "praise"], s.preds, s.praises)
  {
    var pred, praise := ActionMenu[0], ActionMenu[1];
    assert pred[..|MemberPrefix|] != MemberPrefix;
    assert praise[..|MemberPrefix|] != MemberPrefix;
    assert pred[..|ActionPrefix|] == ActionPrefix;
    assert praise[..|ActionPrefix|] == ActionPrefix;
    RemoveAllAfterPrefix(ActionPrefix, "pred");
    RemoveAllAfterPrefix(ActionPrefix, "praise");
    assert RemoveAll("pred", ActionPrefix) == "pred";
    assert RemoveAll("praise", ActionPrefix) == "praise";
  }

  /** `process_reason` with both keys present appends exactly one row: a
      three-cell warning row when the action is "pred", otherwise a
      four-cell praise row issued by "BOT"; the other worksheet is
      unchanged and the FSM is finished. */
  lemma ReasonAppendsOneRow(s: Snapshot, reason: string, today: Date)
    requires ValidDate(today)
    requires MemberKey in s.data && ActionKey in s.data
    ensures var (t, outcome) := OnReason(s, reason, today);
      var member, cell := s.data[MemberKey], DateCell(today);
      && t.state == Idle && t.data == map[]
      && (s.data[ActionKey] == "pred" ==>
            outcome == RecordedPred && t.praises == s.praises
            && t.preds == s.preds + [[member, reason, cell]])
      && (s.data[ActionKey] != "pred" ==>
            outcome == RecordedPraise && t.preds == s.preds
            && t.praises == s.praises + [[member, "BOT", reason, cell]])
  {
  }

  /** A missing scratch key makes `process_reason` raise before it writes:
      "member" is looked up first, then "action"; the snapshot, FSM state
      included, is unchanged. */
  lemma ReasonMissingKey(s: Snapshot, reason: string, today: Date)
    requires ValidDate(today)
    requires MemberKey !in s.data || ActionKey !in s.data
    ensures OnReason(s, reason, today) == (s, MissingKey(if MemberKey !in s.data then "member" else "action"))
  {
  }

  // ---------------------------------------------------------------------
  // The reachable-state invariant
  // ---------------------------------------------------------------------

  /** What holds of every snapshot reachable from a fresh conversation: the
      scratch data holds at most "member" and "action", and while waiting
      for a reason "action" is always set ("member" need not be). */
  ghost predicate Reachable(s: Snapshot) {
    && s.data.Keys <= {MemberKey, ActionKey}
    && (s.state == WaitingReason ==> ActionKey in s.data)
  }

  lemma StepKeepsReachable(s: Snapshot, e: Event, botName: string, today: Date)
    requires ValidDate(today)
    requires Reachable(s)
    ensures Reachable(Step(s, e, botName, today))
  {
  }

  /** In a reachable snapshot `process_reason` can only fail for want of a
      member, never for want of an action. */
  lemma WaitingNeverMissesAction(s: Snapshot, reason: string, today: Date)
    requires ValidDate(today)
    requires Reachable(s) && s.state == WaitingReason
    ensures OnReason(s, reason, today).1 != MissingKey(ActionKey)
  {
  }

  // ---------------------------------------------------------------------
  // Whole conversations
  // ---------------------------------------------------------------------

  /** An update together with the date it is handled on. */
  datatype Update = Update(event: Event, today: Date)

  predicate ValidDates(us: seq<Update>) {
    forall i | 0 <= i < |us| :: ValidDate(us[i].today)
  }

  /** The snapshot after handling `us` in order, starting from `s`. */
  function Run(s: Snapshot, us: seq<Update>, botName: string): (t: Snapshot)
    requires ValidDates(us)
    decreases |us|
  {
    if us == [] then s else Run(Step(s, us[0].event, botName, us[0].today), us[1..], botName)
  }

  /** Every snapshot reachable from a fresh conversation is Reachable. */
  lemma {:induction false} RunKeepsReachable(s: Snapshot, us: seq<Update>, botName: string)
    requires ValidDates(us)
    requires Reachable(s)
    ensures Reachable(Run(s, us, botName))
    decreases |us|
  {
    if us != [] {
      StepKeepsReachable(s, us[0].event, botName, us[0].today);
      RunKeepsReachable(Step(s, us[0].event, botName, us[0].today), us[1..], botName);
    }
  }

  /** The worksheets are append-only over a whole conversation, and grow by
      at most one row per update. */
  lemma {:induction false} RunAppendOnly(s: Snapshot, us: seq<Update>, botName: string)
    requires ValidDates(us)
    ensures var t := Run(s, us, botName);
      && s.preds <= t.preds && s.praises <= t.praises
      && |t.preds| + |t.praises| <= |s.preds| + |s.praises| + |us|
    decreases |us|
  {
    if us != [] {
      RunAppendOnly(Step(s, us[0].event, botName, us[0].today), us[1..], botName);
    }
  }

  /** A conversation of three updates on one day is three steps. */
  lemma RunThree(s: Snapshot, e0: Event, e1: Event, e2: Event, botName: string, today: Date)
    requires ValidDate(today)
    ensures Run(s, [Update(e0, today), Update(e1, today), Update(e2, today)], botName)
            == Step(Step(Step(s, e0, botName, today), e1, botName, today), e2, botName, today)
  {
    var us := [Update(e0, today), Update(e1, today), Update(e2, today)];
    var s1 := Step(s, e0, botName, today);
    var s2 := Step(s1, e1, botName, today);
    assert Run(s, us, botName) == Run(s1, us[1..], botName);
    assert Run(s1, us[1..], botName) == Run(s2, us[2..], botName);
  }

  /** The whole warning flow: pick member `m` on the button `clan_list`
      built, press "pred", send a reason. Exactly one warning row is
      appended, naming the member `member_selected` decoded from the button
      (`m` itself unless `m` contains "member_"), the praise worksheet is
      untouched, and the conversation is back to idle with empty scratch
      data. */
  lemma PredFlow(s: Snapshot, m: string, reason: string, botName: string, today: Date)
    requires ValidDate(today)
    requires s.state == Idle
    requires !IsCommand(reason, "cancel", botName)
    ensures Run(s, [Update(Callback(MemberPrefix + m), today), Update(Callback(ActionMenu[0]), today),
                    Update(Message(reason), today)], botName)
            == Snapshot(Idle, map[], s.preds + [[DecodeMember(MemberPrefix + m), reason, DateCell(today)]], s.praises)
  {
    var e0, e1, e2 := Callback(MemberPrefix + m), Callback(ActionMenu[0]), Message(reason);
    MemberSelectedStores(s, m, botName, today);
    var s1 := Step(s, e0, botName, today);
    ActionButtonsStore(s1, botName, today);
    var s2 := Step(s1, e1, botName, today);
    assert s2.data[MemberKey] == DecodeMember(MemberPrefix + m);
    assert Step(s2, e2, botName, today) == OnReason(s2, reason, today).0;
    ReasonAppendsOneRow(s2, reason, today);
    RunThree(s, e0, e1, e2, botName, today);
  }

  /** The whole praise flow: as PredFlow, but one praise row with issuer
      "BOT" is appended and the warnings are untouched. */
  lemma PraiseFlow(s: Snapshot, m: string, reason: string, botName: string, today: Date)
    requires ValidDate(today)
    requires s.state == Idle
    requires !IsCommand(reason, "cancel", botName)
    ensures Run(s, [Update(Callback(MemberPrefix + m), today), Update(Callback(ActionMenu[1]), today),
                    Update(Message(reason), today)], botName)
            == Snapshot(Idle, map[], s.preds, s.praises + [[DecodeMember(MemberPrefix + m), "BOT", reason, DateCell(today)]])
  {
    var e0, e1, e2 := Callback(MemberPrefix + m), Callback(ActionMenu[1]), Message(reason);
    MemberSelectedStores(s, m, botName, today);
    var s1 := Step(s, e0, botName, today);
    ActionButtonsStore(s1, botName, today);
    var s2 := Step(s1, e1, botName, today);
    assert s2.data[MemberKey] == DecodeMember(MemberPrefix + m);
    assert Step(s2, e2, botName, today) == OnReason(s2, reason, today).0;
    ReasonAppendsOneRow(s2, reason, today);
    RunThree(s, e0, e1, e2, botName, today);
  }

  /** Cancelling mid-flow, after either action button ("pred" for
      `action` 0, "praise" for 1), while the reason is awaited, returns to
      idle with empty scratch data and both worksheets exactly as before
      the flow. */
  lemma CancelledFlow(s: Snapshot, m: string, action: nat, botName: string, today: Date)
    requires ValidDate(today)
    requires s.state == Idle
    requires action < 2
    ensures Run(s, [Update(Callback(MemberPrefix + m), today), Update(Callback(ActionMenu[action]), today),
                    Update(Message("/cancel"), today)], botName)
            == Snapshot(Idle, map[], s.preds, s.praises)
  {
    var e0, e1, e2 := Callback(MemberPrefix + m), Callback(ActionMenu[action]), Message("/cancel");
    MemberSelectedStores(s, m, botName, today);
    var s1 := Step(s, e0, botName, today);
    ActionButtonsStore(s1, botName, today);
    var s2 := Step(s1, e1, botName, today);
    assert s2.preds == s.preds && s2.praises == s.praises;
    CancelFromAnyState(s2, botName, today);
    assert Step(s2, e2, botName, today) == Snapshot(Idle, map[], s.preds, s.praises);
    RunThree(s, e0, e1, e2, botName, today);
  }

  /** An action button pressed with no member stored (an old action menu
      used after `/cancel` emptied the scratch data) leads to a reason that
      raises KeyError: nothing is written and the FSM stays waiting. */
  lemma StaleActionButton(preds: seq<Row>, praises: seq<Row>, reason: string, botName: string, today: Date)
    requires ValidDate(today)
    requires !IsCommand(reason, "cancel", botName)
    ensures var s := Snapshot(Idle, map[], preds, praises);
      var t := Run(s, [Update(Callback(ActionMenu[0]), today)], botName);
      && t == Snapshot(WaitingReason, map[ActionKey := "pred"], preds, praises)
      && Route(t.state, Message(reason), botName) == ProcessReasonHandler
      && OnReason(t, reason, today) == (t, MissingKey(MemberKey))
  {
    var s := Snapshot(Idle, map[], preds, praises);
    ActionButtonsStore(s, botName, today);
  }
}
