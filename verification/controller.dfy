/** The conversation controller of the clan bot: a finite-state machine
    that walks one chat user from the member list to a recorded warning
    ("pred") or praise. The FSM storage of the chat library holds a state
    (none, or ActionState:waiting_reason) and a scratch map with the keys
    "member" and "action"; the two worksheets the controller appends to are
    held as sequences of rows.

    Routing follows the chat library's dispatcher: handlers are tried in the
    order they are registered, the first whose filters accept the update
    runs, and a handler registered without a state filter accepts an update
    only while no FSM state is set. */
module Controller {
  import opened Sheets
  import opened Updates

  /** The FSM state: none, or waiting for the reason text. */
  datatype FsmState = Idle | WaitingReason

  /** An incoming update: a text message or the data of a pressed inline
      button. */
  datatype Event = Message(text: string) | Callback(button: string)

  /** The handler the dispatcher runs for an update, if any. */
  datatype Handler =
    | StartHandler
    | BackMenuHandler
    | ClanListHandler
    | MemberSelectedHandler
    | ActionSelectedHandler
    | CancelHandler
    | ProcessReasonHandler
    | NoHandler

  /** What `process_reason` did: appended a warning, appended a praise, or
      raised KeyError on the named missing scratch key. */
  datatype Outcome = RecordedPred | RecordedPraise | MissingKey(key: string)

  /** The controller's whole state as a value. */
  datatype Snapshot = Snapshot(state: FsmState, data: map<string, string>, preds: seq<Row>, praises: seq<Row>)

  const MemberKey: string := "member"
  const ActionKey: string := "action"
  /** The action value that selects the warning worksheet; any other value
      selects the praise worksheet. */
  const PredAction: string := "pred"

  const BackMenuData: string := "back_menu"
  const ClanListData: string := "clan_list"

  /** Button data of the main menu. */
  const MainMenu: seq<string> := [ClanListData]
  /** Button data of the menu `member_selected` shows. */
  const ActionMenu: seq<string> := [ActionPrefix + "pred", ActionPrefix + "praise", BackMenuData]

  // ---------------------------------------------------------------------
  // Dispatch
  // ---------------------------------------------------------------------

  /** The handler the dispatcher picks for update `e` in FSM state `state`.
      Message handlers in registration order: `start` (no state filter),
      `cancel` (any state), `process_reason` (waiting_reason only). Callback
      handlers, none of them with a state filter: `back_menu`, `clan_list`,
      `member_selected`, `action_selected`. */
  function Route(state: FsmState, e: Event, botName: string): (h: Handler)
    // handlers registered without a state filter run only with no FSM state
    ensures h in {StartHandler, BackMenuHandler, ClanListHandler, MemberSelectedHandler, ActionSelectedHandler}
            ==> state == Idle
    // `cancel` accepts any state and is tried before `process_reason`
    ensures h == CancelHandler <==> e.Message? && IsCommand(e.text, "cancel", botName)
    ensures h == StartHandler <==> state == Idle && e.Message? && IsCommand(e.text, "start", botName)
    // `process_reason` takes every other text while waiting for a reason
    ensures h == ProcessReasonHandler
            <==> state == WaitingReason && e.Message? && !IsCommand(e.text, "cancel", botName)
    ensures h == MemberSelectedHandler <==> state == Idle && e.Callback? && StartsWith(e.button, MemberPrefix)
    ensures h == ActionSelectedHandler <==> state == Idle && e.Callback? && StartsWith(e.button, ActionPrefix)
    ensures h == BackMenuHandler <==> state == Idle && e == Callback(BackMenuData)
    ensures h == ClanListHandler <==> state == Idle && e == Callback(ClanListData)
    // while waiting for a reason no button reaches a handler
    ensures e.Callback? && state == WaitingReason ==> h == NoHandler
  {
    assert !StartsWith(BackMenuData, MemberPrefix) by { assert BackMenuData[0] != MemberPrefix[0]; }
    assert !StartsWith(ClanListData, MemberPrefix) by { assert ClanListData[0] != MemberPrefix[0]; }
    assert !StartsWith(BackMenuData, ActionPrefix) by { assert BackMenuData[0] != ActionPrefix[0]; }
    assert !StartsWith(ClanListData, ActionPrefix) by { assert ClanListData[0] != ActionPrefix[0]; }
    assert forall b :: StartsWith(b, ActionPrefix) ==> !StartsWith(b, MemberPrefix) by {
      forall b | StartsWith(b, ActionPrefix)
        ensures !StartsWith(b, MemberPrefix)
      {
        assert b[0] == ActionPrefix[0];
      }
    }
    match e
    case Message(text) =>
      if state == Idle && IsCommand(text, "start", botName) then StartHandler
      else if IsCommand(text, "cancel", botName) then CancelHandler
      else if state == WaitingReason then ProcessReasonHandler
      else NoHandler
    case Callback(button) =>
      if state != Idle then NoHandler
      else if button == BackMenuData then BackMenuHandler
      else if button == ClanListData then ClanListHandler
      else if StartsWith(button, MemberPrefix) then MemberSelectedHandler
      else if StartsWith(button, ActionPrefix) then ActionSelectedHandler
      else NoHandler
  }

  // ---------------------------------------------------------------------
  // Transitions, as functions on snapshots
  // ---------------------------------------------------------------------

  /** `member_selected`: `update_data(member=...)` stores the decoded name
      under "member" and keeps every other key; the FSM state and the
      worksheets are untouched. */
  function OnMemberSelected(s: Snapshot, button: string): (t: Snapshot)
    ensures t.state == s.state && t.preds == s.preds && t.praises == s.praises
    ensures t.data.Keys == s.data.Keys + {MemberKey}
    ensures t.data[MemberKey] == DecodeMember(button)
    ensures forall k | k in s.data && k != MemberKey :: t.data[k] == s.data[k]
  {
    s.(data := s.data[MemberKey := DecodeMember(button)])
  }

  /** `action_selected`: `update_data(action=...)` stores the decoded action
      under "action" and keeps every other key; the FSM then waits for the
      reason, and the worksheets are untouched. */
  function OnActionSelected(s: Snapshot, button: string): (t: Snapshot)
    ensures t.state == WaitingReason && t.preds == s.preds && t.praises == s.praises
    ensures t.data.Keys == s.data.Keys + {ActionKey}
    ensures t.data[ActionKey] == DecodeAction(button)
    ensures forall k | k in s.data && k != ActionKey :: t.data[k] == s.data[k]
  {
    s.(state := WaitingReason, data := s.data[ActionKey := DecodeAction(button)])
  }

  /** `cancel`: `state.finish()` clears both the state and the scratch data
      and leaves the worksheets alone. */
  function OnCancel(s: Snapshot): (t: Snapshot)
    ensures t.state == Idle && t.data == map[]
    ensures t.preds == s.preds && t.praises == s.praises
  {
    s.(state := Idle, data := map[])
  }

  /** `process_reason`: reads "member" then "action" from the scratch data
      (a missing key raises KeyError and the handler stops with nothing
      changed), appends one row to the warning worksheet when the action is
      "pred" and to the praise worksheet otherwise, then finishes the FSM. */
  function OnReason(s: Snapshot, reason: string, today: Date): (r: (Snapshot, Outcome))
    requires ValidDate(today)
    // the worksheets only grow at the end
    ensures s.preds <= r.0.preds && s.praises <= r.0.praises
    // a missing key raises, "member" being looked up first, and nothing changes
    ensures r.1.MissingKey? <==> MemberKey !in s.data || ActionKey !in s.data
    ensures r.1.MissingKey? ==> r.0 == s && r.1.key == (if MemberKey !in s.data then MemberKey else ActionKey)
    // otherwise exactly one row, naming the stored member, is added and the FSM is finished
    ensures !r.1.MissingKey? ==>
              && |r.0.preds| + |r.0.praises| == |s.preds| + |s.praises| + 1
              && r.0.state == Idle && r.0.data == map[]
    ensures r.1 == RecordedPred
            <==> MemberKey in s.data && ActionKey in s.data && s.data[ActionKey] == PredAction
    ensures r.1 == RecordedPred
            ==> r.0.praises == s.praises && r.0.preds == s.preds + [PredRow(s.data[MemberKey], reason, today)]
    ensures r.1 == RecordedPraise
            ==> r.0.preds == s.preds && r.0.praises == s.praises + [PraiseRow(s.data[MemberKey], reason, today)]
  {
    if MemberKey !in s.data then (s, MissingKey(MemberKey))
    else if ActionKey !in s.data then (s, MissingKey(ActionKey))
    else
      var member := s.data[MemberKey];
      if s.data[ActionKey] == PredAction then
        (Snapshot(Idle, map[], s.preds + [PredRow(member, reason, today)], s.praises), RecordedPred)
      else
        (Snapshot(Idle, map[], s.preds, s.praises + [PraiseRow(member, reason, today)]), RecordedPraise)
  }

  /** One update handled from snapshot `s` on day `today`. Handlers that
      only render a menu leave the snapshot as it is. */
  function Step(s: Snapshot, e: Event, botName: string, today: Date): (t: Snapshot)
    requires ValidDate(today)
    // no update rewrites an existing row, and each appends at most one
    ensures s.preds <= t.preds && s.praises <= t.praises
    ensures |t.preds| + |t.praises| <= |s.preds| + |s.praises| + 1
    // only `process_reason`, with both keys present, writes
    ensures t.preds != s.preds || t.praises != s.praises
            ==> Route(s.state, e, botName) == ProcessReasonHandler && MemberKey in s.data && ActionKey in s.data
  {
    match e
    case Message(text) =>
      (match Route(s.state, e, botName)
       case CancelHandler => OnCancel(s)
       case ProcessReasonHandler => OnReason(s, text, today).0
       case _ => s)
    case Callback(button) =>
      (match Route(s.state, e, botName)
       case MemberSelectedHandler => OnMemberSelected(s, button)
       case ActionSelectedHandler => OnActionSelected(s, button)
       case _ => s)
  }

  // ---------------------------------------------------------------------
  // The controller object
  // ---------------------------------------------------------------------

  /** One chat user's conversation with the bot, together with the two
      worksheets it appends to. */
  class Conversation {
    /** The bot's username, against which a command's @mention is checked. */
    const botName: string
    var state: FsmState
    var data: map<string, string>
    /** Rows of the "преды" worksheet. */
    var preds: seq<Row>
    /** Rows of the "Похвала" worksheet. */
    var praises: seq<Row>

    function Current(): (snapshot: Snapshot)
      reads this
    {
      Snapshot(state, data, preds, praises)
    }

    /** A fresh conversation: no FSM state, no scratch data, the worksheets
        as they stand. */
    constructor (botName: string, preds: seq<Row>, praises: seq<Row>)
      ensures this.botName == botName
      ensures Current() == Snapshot(Idle, map[], preds, praises)
    {
      this.botName := botName;
      state := Idle;
      data := map[];
      this.preds := preds;
      this.praises := praises;
    }

    /** `start`: shows the main menu and changes nothing. */
    method Start() returns (menu: seq<string>)
      ensures menu == MainMenu
    {
      menu := MainMenu;
    }

    /** `back_menu`: shows the main menu again and changes nothing. */
    method BackMenu() returns (menu: seq<string>)
      ensures menu == MainMenu
    {
      menu := MainMenu;
    }

    /** The keyboard `clan_list` builds from the member list: one button
        per member, with data "member_" + name, in list order, and a final
        button back to the main menu. */
    method MemberKeyboard(members: seq<string>) returns (buttons: seq<string>)
      ensures |buttons| == |members| + 1
      ensures forall i | 0 <= i < |members| :: buttons[i] == MemberPrefix + members[i]
      ensures buttons[|members|] == BackMenuData
    {
      buttons := [];
      for i := 0 to |members|
        invariant |buttons| == i
        invariant forall k | 0 <= k < i :: buttons[k] == MemberPrefix + members[k]
      {
        buttons := buttons + [MemberPrefix + members[i]];
      }
      buttons := buttons + [BackMenuData];
    }

    /** `clan_list`: the keyboard for `get_clan_members()` over the current
        cells of column 1 (`column`). */
    method ClanList(column: seq<string>) returns (buttons: seq<string>)
      ensures |buttons| == |ClanMembers(column)| + 1
      ensures forall i | 0 <= i < |buttons| - 1 :: buttons[i] == MemberPrefix + ClanMembers(column)[i]
      ensures buttons[|buttons| - 1] == BackMenuData
    {
      var members := ClanMembers(column);
      buttons := MemberKeyboard(members);
    }

    /** `member_selected`: stores the decoded member name and offers the
        action menu. */
    method MemberSelected(button: string) returns (menu: seq<string>)
      modifies this
      ensures Current() == OnMemberSelected(old(Current()), button)
      ensures menu == ActionMenu
    {
      data := data[MemberKey := DecodeMember(button)];
      menu := ActionMenu;
    }

    /** `action_selected`: stores the decoded action and waits for the
        reason. */
    method ActionSelected(button: string)
      modifies this
      ensures Current() == OnActionSelected(old(Current()), button)
    {
      data := data[ActionKey := DecodeAction(button)];
      state := WaitingReason;
    }

    /** `cancel`: finishes the FSM and shows the main menu. */
    method Cancel() returns (menu: seq<string>)
      modifies this
      ensures Current() == OnCancel(old(Current()))
      ensures menu == MainMenu
    {
      state := Idle;
      data := map[];
      menu := MainMenu;
    }

    /** `process_reason`: records `reason` as a warning or a praise for the
        stored member, dated `today`, and finishes the FSM. */
    method ProcessReason(reason: string, today: Date) returns (outcome: Outcome)
      requires ValidDate(today)
      modifies this
      ensures (Current(), outcome) == OnReason(old(Current()), reason, today)
    {
      if MemberKey !in data {
        return MissingKey(MemberKey);
      }
      var member := data[MemberKey];
      if ActionKey !in data {
        return MissingKey(ActionKey);
      }
      var action := data[ActionKey];
      if action == PredAction {
        preds := preds + [PredRow(member, reason, today)];
        outcome := RecordedPred;
      } else {
        praises := praises + [PraiseRow(member, reason, today)];
        outcome := RecordedPraise;
      }
      state := Idle;
      data := map[];
    }

    /** The dispatcher: picks the handler for `e` and runs it. `today` is
        the date `datetime.now()` would give and `column` the cells of
        column 1 of the member worksheet at that moment. */
    method Handle(e: Event, today: Date, column: seq<string>) returns (h: Handler)
      requires ValidDate(today)
      modifies this
      ensures h == Route(old(state), e, botName)
      ensures Current() == Step(old(Current()), e, botName, today)
    {
      h := Route(state, e, botName);
      match e {
        case Message(text) =>
          if h == StartHandler {
            var _ := Start();
          } else if h == CancelHandler {
            var _ := Cancel();
          } else if h == ProcessReasonHandler {
            var _ := ProcessReason(text, today);
          }
        case Callback(button) =>
          if h == BackMenuHandler {
            var _ := BackMenu();
          } else if h == ClanListHandler {
            var _ := ClanList(column);
          } else if h == MemberSelectedHandler {
            var _ := MemberSelected(button);
          } else if h == ActionSelectedHandler {
            ActionSelected(button);
          }
      }
    }
  }
}
