# Clan bot conversation controller, in Dafny

A model of the conversation controller in `bot.py` of the clan administration
bot. The bot shows the clan's member list, taken from column 1 of the
"участники клана" worksheet. The user picks a member and then an action:
"pred" (a warning) or "praise". The bot then waits for a reason, writes one
row to the "преды" worksheet or the "Похвала" worksheet, and returns to its
main menu. `/cancel` abandons the flow at any point.

The model has four modules:

- `Sheets` (`sheets.dfy`) holds the pure helpers.
  - `Strip` is Python's `str.strip()`, over Python's whitespace set.
  - `ClanMembers` is `get_clan_members`.
  - `DateCell` is the `%d%m%y` date cell. `ParseDateCell` reads a cell back.
  - `PredRow` and `PraiseRow` are the rows `append_pred` and `append_praise` write.
- `Updates` (`updates.dfy`) reads incoming updates.
  - `RemoveAll` is `str.replace(prefix, "")`, which the handlers use to decode button data.
  - `IsCommand` is the chat library's `commands=[...]` message filter.
  - `DecodeMember` and `DecodeAction` read the member and the action from button data.
- `Controller` (`controller.dfy`) holds the state machine.
  - `Route` picks the handler for an update, in registration order, and honours each handler's state filter.
  - `OnMemberSelected`, `OnActionSelected`, `OnCancel` and `OnReason` are the handlers' effects on a `Snapshot` value.
  - `Step` handles one update.
  - The class `Conversation` has the FSM state, the scratch data map and the two worksheets as mutable fields. It has one method per handler and a dispatcher `Handle`. Each method's `ensures` ties the new state to the matching snapshot function.
- `Flows` (`flows.dfy`) holds the properties.
  - Routing facts: `/cancel` wins in every state; `/start` while waiting becomes the reason.
  - What each handler changes.
  - `Reachable`, an invariant that every reachable snapshot keeps.
  - Whole conversations: append-only worksheets, the warning, praise and cancel flows, and the stale-button case.

Library semantics taken as given:

- In the chat library (aiogram 2), a handler registered without `state=` fires only while no FSM state is set.
- Handlers are tried in registration order. So `cancel` (`state="*"`, bot.py:167) beats `process_reason` (bot.py:177).
- `state.finish()` clears both the state and the scratch data.
- `update_data` merges keys into the scratch map.
- A handler that raises stops at that point. Nothing after the raise happens.

Behaviour the model makes explicit:

- Button data is decoded with `replace`, which removes every occurrence of the prefix. A member whose name contains `member_` is recorded under a different name (`MemberNameMangled`, `MemberCallbackRoundTrip`).
- The member list includes the header cell of column 1, because `col_values` returns it.
- The praise issuer is always `"BOT"`: `MY_NAME` is overwritten right after it is read (bot.py:30-31).
- While a reason is awaited, `/start` is taken as the reason text, and inline buttons do nothing.
- An action button pressed with no member stored makes `process_reason` raise `KeyError`. This happens, for example, after an old action menu is used following `/cancel`. Nothing is written, and the FSM stays in waiting_reason (`StaleActionButton`).
- The date cell is `DDMMYY`, the format `%d%m%y` (bot.py:57, 63): zero-padded day, zero-padded month, and the year modulo 100.

## Model

| member | source | states |
|---|---|---|
| `Sheets.Strip` | bot.py:52 | `strip()` yields a slice of the cell with only whitespace cut from both ends. It is empty exactly when the cell is all whitespace. Otherwise it starts and ends with a non-space character. |
| `Sheets.ListedIffNonSpace` | bot.py:52 | A cell is kept by the member filter exactly when it holds a non-whitespace character. |
| `Sheets.ClanMembers` | bot.py:50-52 | Every non-blank cell of column 1 is kept, unstripped, exactly as many times as it occurs. Every blank cell is dropped. |
| `Sheets.ClanMembersConcat` | bot.py:52 | The filter keeps the column's order: filtering a concatenation is concatenating the filtered parts. |
| `Sheets.ClanMembersKeepsHeader` | bot.py:51-52 | A non-blank header cell is the first entry of the member list. |
| `Sheets.DateCell` | bot.py:57 | The `%d%m%y` cell is always six decimal digits. |
| `Sheets.DateCellRoundTrip` | bot.py:57 | The cell reads back as day, month and the year modulo 100. |
| `Sheets.DateCellEqualIff` | bot.py:63 | Two dates give the same cell exactly when they agree on day, month and year within the century. |
| `Sheets.PredRow` | bot.py:55-58 | The warning row has three cells: the member, the reason, and a date cell that reads back as today's day, month and year modulo 100. |
| `Sheets.PraiseRow` | bot.py:61-64 | The praise row has four cells: the member, the issuer "BOT", the reason, and a date cell that reads back as today's day, month and year modulo 100. |
| `Updates.RemoveAll` | bot.py:134 | `replace(prefix, "")` leaves data unchanged exactly when the prefix does not occur in it. Otherwise the result is strictly shorter. It is never longer. |
| `Updates.RemoveAllKeepsCharacters` | bot.py:134 | `replace(prefix, "")` only takes characters out: the result's characters are a sub-multiset of the data's. |
| `Updates.RemoveAllFirstOccurrence` | bot.py:134 | `replace(prefix, "")` scans left to right: the text before the first occurrence is kept, that occurrence is cut, and the rest is the removal applied to the text after it. Together with `RemoveAll`'s contract this fixes the result. |
| `Updates.DecodeMember` | bot.py:134 | The member read from button data is the data itself exactly when it holds no "member_". Data "member_" + rest decodes to rest when rest holds no "member_". |
| `Updates.DecodeAction` | bot.py:156 | The action read from button data is the data itself exactly when it holds no "action_". Data "action_" + rest decodes to rest when rest holds no "action_". |
| `Updates.RemoveAllAfterPrefix` | bot.py:156 | A leading prefix is removed and the scan continues after it. |
| `Updates.MemberCallbackRoundTrip` | bot.py:119-134 | Decoding the data `clan_list` builds for member m gives back m exactly when m does not contain "member_". |
| `Updates.MemberNameMangled` | bot.py:134 | The button for member "member_x" is recorded as member "x". |
| `Updates.CancelIsCommand` | bot.py:167 | "/cancel" passes the cancel command filter and fails the start filter. |
| `Updates.StartIsCommand` | bot.py:99 | "/start" passes the start command filter and fails the cancel filter. |
| `Updates.CommandWithArguments` | bot.py:99-167 | For any lower-case command name, "/" + name, alone or followed by whitespace and arguments, passes that command's filter whatever the bot is called, and no other command's filter. |
| `Controller.Route` | bot.py:99-177 | Handlers without a state filter run only when there is no FSM state. `cancel` runs exactly for the cancel command, in any state. `start` runs exactly for the start command with no state. `process_reason` runs exactly for a text other than the cancel command while waiting. `member_selected` runs exactly for data starting "member_" with no state. `action_selected` runs exactly for data starting "action_" with no state. `back_menu` and `clan_list` run exactly for their own data with no state. While waiting, no button reaches a handler. |
| `Controller.OnMemberSelected` | bot.py:132-135 | "member" becomes the decoded name. Every other key is kept, and the FSM state and both worksheets are unchanged. |
| `Controller.OnActionSelected` | bot.py:154-158 | "action" becomes the decoded action, and every other key is kept. The state becomes waiting_reason. Both worksheets are unchanged. |
| `Controller.OnCancel` | bot.py:167-169 | `finish()` leaves no FSM state and no scratch data. Both worksheets are unchanged. |
| `Controller.OnReason` | bot.py:177-192 | The worksheets only grow at the end. It raises exactly when "member" or "action" is missing; "member" is reported first, and nothing changes. Otherwise exactly one row is added and the FSM is finished. The row is a `PredRow` of the stored member iff the action is "pred", else a `PraiseRow`, and the other worksheet is unchanged. |
| `Controller.Step` | bot.py:99-192 | No update rewrites an existing row, each update appends at most one row, and only `process_reason` with both keys present writes. |
| `Controller.Conversation.constructor` | bot.py:74 | A new conversation has no FSM state and no scratch data, and the worksheets as given. |
| `Controller.Conversation.Start` | bot.py:99-101 | `start` shows the main menu (one "clan_list" button) and changes nothing. |
| `Controller.Conversation.BackMenu` | bot.py:104-106 | `back_menu` shows the main menu and changes nothing. |
| `Controller.Conversation.MemberKeyboard` | bot.py:117-120 | The keyboard loop makes one button per member, in order, with data "member_" + name, then one "back_menu" button. |
| `Controller.Conversation.ClanList` | bot.py:113-120 | `clan_list` shows one button per member-list entry, in order, with data "member_" + name, then a "back_menu" button. It changes nothing. |
| `Controller.Conversation.MemberSelected` | bot.py:132-142 | The new state is `OnMemberSelected` of the old: scratch "member" becomes the decoded name. The action menu is shown. |
| `Controller.Conversation.ActionSelected` | bot.py:154-158 | The new state is `OnActionSelected` of the old: scratch "action" becomes the decoded action, and the state becomes waiting_reason. |
| `Controller.Conversation.Cancel` | bot.py:167-170 | The new state is `OnCancel` of the old: no FSM state and no scratch data. The main menu is shown. |
| `Controller.Conversation.ProcessReason` | bot.py:177-192 | The new state and the outcome are `OnReason` of the old state, the reason text and the date. |
| `Controller.Conversation.Handle` | bot.py:99-177 | The handler run is `Route` of the old FSM state and the update. The new state is `Step` of the old. |
| `Flows.CancelFromAnyState` | bot.py:167-169 | `/cancel` reaches `cancel` in every state. Afterwards there is no state and no scratch data, and the worksheets are unchanged. |
| `Flows.StartWhileWaitingIsReason` | bot.py:177-183 | While waiting for a reason, "/start" goes to `process_reason` as the reason text. |
| `Flows.IgnoredUpdates` | bot.py:104-154 | While waiting, no button reaches a handler. While idle, text that is neither /start nor /cancel reaches none. |
| `Flows.ClanListButtonsRoute` | bot.py:118-132 | The button "member_" + m built for any member m reaches `member_selected`, whatever m is. The closing "back_menu" button reaches `back_menu`. |
| `Flows.MemberSelectedStores` | bot.py:132-135 | Choosing member m sets "member" (stored as m exactly when m lacks "member_") and keeps every other key. The FSM state and both worksheets are unchanged. |
| `Flows.ActionButtonsStore` | bot.py:139-158 | The two action buttons store "pred" and "praise" and set the state to waiting_reason. Nothing is appended. |
| `Flows.ReasonAppendsOneRow` | bot.py:177-192 | With both keys present, exactly one row is appended: [member, reason, DDMMYY] to the warnings iff action is "pred", else [member, "BOT", reason, DDMMYY] to the praise worksheet. The other worksheet is unchanged, and the FSM is finished. |
| `Flows.ReasonMissingKey` | bot.py:179-182 | A missing "member" (checked first) or "action" raises, with nothing written and the state unchanged. |
| `Flows.StepKeepsReachable` | bot.py:132-192 | Every handler keeps the invariant: scratch keys stay within {member, action}, and waiting_reason implies "action" is set. |
| `Flows.WaitingNeverMissesAction` | bot.py:154-182 | In a reachable state, `process_reason` never fails for a missing action. It can fail only for a missing member. |
| `Flows.RunKeepsReachable` | bot.py:132-192 | The invariant holds after any sequence of updates. |
| `Flows.RunAppendOnly` | bot.py:55-64 | Over any conversation, both worksheets only grow at the end, by at most one row per update. |
| `Flows.PredFlow` | bot.py:132-192 | For any member m: the button "member_" + m, then "pred", then a reason adds exactly [DecodeMember("member_" + m), reason, DDMMYY] to the warnings. That first cell is m when m holds no "member_". The praise worksheet is unchanged, and the conversation is idle with empty data. |
| `Flows.PraiseFlow` | bot.py:132-192 | For any member m: the button "member_" + m, then "praise", then a reason adds exactly [DecodeMember("member_" + m), "BOT", reason, DDMMYY] to the praise worksheet. The warnings are unchanged. |
| `Flows.CancelledFlow` | bot.py:132-170 | Member, then either action button ("pred" or "praise"), then /cancel: the conversation is idle with empty data, and both worksheets are as before the flow. |
| `Flows.StaleActionButton` | bot.py:154-182 | An action button pressed with empty scratch data leads to waiting_reason with only "action" set. The next reason raises on "member". |

## Left out

- Credential loading, environment variables and JSON parsing (bot.py:18-29) are configuration input and are not modelled.
- Spreadsheet authorisation and worksheet lookup by name (bot.py:46-47, 51, 56, 62) are not modelled. The two appended worksheets are fields of the class, and column 1 of the member worksheet is a parameter of `ClanList` and `Handle`.
- The bot and dispatcher setup, logging and polling (bot.py:71-74, 199-200) are library runtime.
- Keyboard labels, message texts, and the `edit_text`/`answer` fallback in `clan_list` (bot.py:122-125) are rendering. The model keeps only each button's callback data.
- Concurrency is not modelled, and this includes updates from the same user. The FSM storage is keyed per chat and user, and one `Conversation` is one such key. The model handles updates one at a time and each handler runs to completion. The chat library runs each update as its own task, so two quick messages can both pass the waiting-reason filter while the first is still awaiting `answer` (bot.py:187, bot.py:190) before `finish()` (bot.py:192). Both then append a row, an outcome the sequential model cannot produce. Two users appending to the same worksheet are not modelled either.
- `datetime.now()` is replaced by a `today` parameter.
- The unused `CLAN_MEMBERS` constant (bot.py:32-36) is not modelled.
- Failures of the spreadsheet calls and of message delivery are not modelled. What the library does after a handler raises (log and drop the update) is reduced to "the snapshot is unchanged".
- `IsCommand` reduces Python's `lower()` to ASCII case folding. This is exact for the commands `start` and `cancel`, but not for non-ASCII mentions. Non-text messages are not modelled. A blank text, on which `text.split()[0]` would raise inside the library's filter, is treated as not a command.
- The chat platform's 64-byte limit on button data is not modelled. The limit counts UTF-8 bytes, so "member_" followed by a Cyrillic name of more than 28 letters exceeds it. The platform then rejects the whole inline keyboard, not just that button, and the chat library raises `ButtonDataInvalid`. Both `edit_text` and the fallback `answer` in `clan_list` send the same keyboard (bot.py:122-125), so the handler raises and nobody sees the member list. The model's `ClanList` always returns the buttons.
