/** How an incoming update is read: the callback data of an inline button,
    decoded with `str.replace(prefix, "")`, and the bot-command test that
    decides whether a text message is `/start` or `/cancel`. */
module Updates {
  import opened Sheets

  // ---------------------------------------------------------------------
  // Callback data
  // ---------------------------------------------------------------------

  const MemberPrefix: string := "member_"
  const ActionPrefix: string := "action_"

  predicate StartsWith(s: string, prefix: string) {
    |prefix| <= |s| && s[..|prefix|] == prefix
  }

  predicate OccursAt(s: string, pat: string, i: int) {
    0 <= i && i + |pat| <= |s| && s[i..i + |pat|] == pat
  }

  predicate Contains(s: string, pat: string) {
    exists i | 0 <= i <= |s| :: OccursAt(s, pat, i)
  }

  /** The leftmost occurrence of `pat` in `s` starts at `i`. */
  predicate FirstOccursAt(s: string, pat: string, i: int) {
    OccursAt(s, pat, i) && forall j | 0 <= j < i :: !OccursAt(s, pat, j)
  }

  /** `s.replace(pat, "")`: scanning left to right, every non-overlapping
      occurrence of `pat` is cut out. The data comes back unchanged exactly
      when `pat` does not occur in it; otherwise it comes back shorter. */
  function RemoveAll(s: string, pat: string): (r: string)
    requires pat != []
    ensures |r| <= |s|
    ensures r == s <==> !Contains(s, pat)
    ensures Contains(s, pat) ==> |r| < |s|
    decreases |s|
  {
    if |s| < |pat| then s
    else if s[..|pat|] == pat then
      assert OccursAt(s, pat, 0);
      RemoveAll(s[|pat|..], pat)
    else
      ContainsPastHead(s, pat);
      assert s == [s[0]] + s[1..];
      [s[0]] + RemoveAll(s[1..], pat)
  }

  /** The member name `member_selected` reads from a button's data: the
      data itself exactly when it holds no "member_", and the part after a
      leading "member_" when that part holds none. */
  function DecodeMember(data: string): (name: string)
    ensures name == data <==> !Contains(data, MemberPrefix)
    ensures StartsWith(data, MemberPrefix) && !Contains(data[|MemberPrefix|..], MemberPrefix)
            ==> name == data[|MemberPrefix|..]
  {
    RemoveAllLeading(data, MemberPrefix);
    RemoveAll(data, MemberPrefix)
  }

  /** The action name `action_selected` reads from a button's data: the
      data itself exactly when it holds no "action_", and the part after a
      leading "action_" when that part holds none. */
  function DecodeAction(data: string): (action: string)
    ensures action == data <==> !Contains(data, ActionPrefix)
    ensures StartsWith(data, ActionPrefix) && !Contains(data[|ActionPrefix|..], ActionPrefix)
            ==> action == data[|ActionPrefix|..]
  {
    RemoveAllLeading(data, ActionPrefix);
    RemoveAll(data, ActionPrefix)
  }

  /** When the pattern does not start `s`, it occurs in `s` exactly when it
      occurs in `s` past the first character. */
  lemma ContainsPastHead(s: string, pat: string)
    requires pat != [] && |s| >= |pat| && s[..|pat|] != pat
    ensures Contains(s, pat) <==> Contains(s[1..], pat)
  {
    var tail := s[1..];
    if Contains(s, pat) {
      var i :| 0 <= i <= |s| && OccursAt(s, pat, i);
      assert 0 < i && i + |pat| <= |s|;
      assert tail[i - 1..i - 1 + |pat|] == s[i..i + |pat|];
      assert OccursAt(tail, pat, i - 1);
    }
    if Contains(tail, pat) {
      var i :| 0 <= i <= |tail| && OccursAt(tail, pat, i);
      assert s[i + 1..i + 1 + |pat|] == tail[i..i + |pat|];
      assert OccursAt(s, pat, i + 1);
    }
  }

  /** Only characters of the data remain: nothing is added or reordered
      into it, only whole copies of the pattern are taken out. */
  lemma {:induction false} RemoveAllKeepsCharacters(s: string, pat: string)
    requires pat != []
    ensures multiset(RemoveAll(s, pat)) <= multiset(s)
    decreases |s|
  {
    if |s| >= |pat| && s[..|pat|] == pat {
      RemoveAllKeepsCharacters(s[|pat|..], pat);
      assert s == s[..|pat|] + s[|pat|..];
    } else if |s| >= |pat| {
      RemoveAllKeepsCharacters(s[1..], pat);
      assert s == [s[0]] + s[1..];
    }
  }

  /** An occurrence at `j` past the first character is an occurrence at
      `j - 1` in the tail. */
  lemma OccursInTail(s: string, pat: string, j: int)
    requires 1 <= j && s != []
    ensures OccursAt(s, pat, j) <==> OccursAt(s[1..], pat, j - 1)
  {
    if j + |pat| <= |s| {
      assert s[1..][j - 1..j - 1 + |pat|] == s[j..j + |pat|];
    }
  }

  /** The first occurrence at `i > 0` is the first occurrence at `i - 1` in
      the tail. */
  lemma FirstOccurrenceInTail(s: string, pat: string, i: nat)
    requires 0 < i && FirstOccursAt(s, pat, i)
    ensures FirstOccursAt(s[1..], pat, i - 1) && !OccursAt(s, pat, 0)
  {
    OccursInTail(s, pat, i);
    forall j | 0 <= j < i - 1
      ensures !OccursAt(s[1..], pat, j)
    {
      OccursInTail(s, pat, j + 1);
    }
  }

  /** When the data does not start with the pattern, its first character is
      kept and the scan goes on from the second. */
  lemma RemoveAllKeepsHead(s: string, pat: string)
    requires pat != [] && |s| >= |pat| && !OccursAt(s, pat, 0)
    ensures RemoveAll(s, pat) == [s[0]] + RemoveAll(s[1..], pat)
  {
  }

  /** Sequence algebra for the inductive step of RemoveAllFirstOccurrence:
      the head of `s`, then the first `i - 1` characters of its tail, then
      `r`, is the first `i` characters of `s`, then `r`. */
  lemma SpliceHead(s: string, i: nat, n: nat, a: string, r: string)
    requires 0 < i && i + n <= |s|
    requires a == s[1..][..i - 1] + r
    ensures [s[0]] + a == s[..i] + r
  {
    assert [s[0]] + s[1..][..i - 1] == s[..i];
  }

  /** The base case of RemoveAllFirstOccurrence: an occurrence at the start
      is cut and the scan goes on after it. */
  lemma RemoveAllOccurrenceAtStart(s: string, pat: string)
    requires pat != [] && OccursAt(s, pat, 0)
    ensures RemoveAll(s, pat) == s[..0] + RemoveAll(s[0 + |pat|..], pat)
  {
    assert s[..|pat|] == pat;
  }

  /** The inductive step of RemoveAllFirstOccurrence: when the data does
      not start with the pattern, what holds of its tail at `i - 1` holds of
      the data at `i`. */
  lemma RemoveAllFirstOccurrenceStep(s: string, pat: string, i: nat)
    requires pat != [] && 0 < i && i + |pat| <= |s| && !OccursAt(s, pat, 0)
    requires RemoveAll(s[1..], pat) == s[1..][..i - 1] + RemoveAll(s[1..][i - 1 + |pat|..], pat)
    ensures RemoveAll(s, pat) == s[..i] + RemoveAll(s[i + |pat|..], pat)
  {
    assert s[1..][i - 1 + |pat|..] == s[i + |pat|..];
    RemoveAllKeepsHead(s, pat);
    SpliceHead(s, i, |pat|, RemoveAll(s[1..], pat), RemoveAll(s[i + |pat|..], pat));
  }

  /** The scan runs left to right: the text before the first occurrence is
      kept, that occurrence is cut out, and the scan goes on right after it.
      With `RemoveAll`'s own contract for data with no occurrence, this
      determines the result: every non-overlapping occurrence found left
      to right is removed. */
  lemma {:induction false} RemoveAllFirstOccurrence(s: string, pat: string, i: nat)
    requires pat != [] && FirstOccursAt(s, pat, i)
    ensures RemoveAll(s, pat) == s[..i] + RemoveAll(s[i + |pat|..], pat)
    decreases i
  {
    if i == 0 {
      RemoveAllOccurrenceAtStart(s, pat);
    } else {
      FirstOccurrenceInTail(s, pat, i);
      RemoveAllFirstOccurrence(s[1..], pat, i - 1);
      RemoveAllFirstOccurrenceStep(s, pat, i);
    }
  }

  /** A leading copy of the pattern is removed and the scan goes on after it. */
  lemma RemoveAllAfterPrefix(pat: string, m: string)
    requires pat != []
    ensures RemoveAll(pat + m, pat) == RemoveAll(m, pat)
  {
    assert (pat + m)[..|pat|] == pat;
    assert (pat + m)[|pat|..] == m;
  }

  /** Data made of the pattern and a rest free of it decodes to the rest. */
  lemma RemoveAllLeading(s: string, pat: string)
    requires pat != []
    ensures StartsWith(s, pat) && !Contains(s[|pat|..], pat) ==> RemoveAll(s, pat) == s[|pat|..]
  {
    if StartsWith(s, pat) {
      RemoveAllAfterPrefix(pat, s[|pat|..]);
      assert pat + s[|pat|..] == s;
    }
  }

  /** The button `clan_list` builds for member `m` has data "member_" + m;
      `member_selected` gets `m` back from it exactly when `m` itself does
      not contain "member_". */
  lemma MemberCallbackRoundTrip(m: string)
    ensures DecodeMember(MemberPrefix + m) == m <==> !Contains(m, MemberPrefix)
  {
    RemoveAllAfterPrefix(MemberPrefix, m);
  }

  /** A member whose name contains "member_" is recorded under a different,
      shorter name: "member_x" comes back as "x". */
  lemma MemberNameMangled()
    ensures DecodeMember(MemberPrefix + "member_x") == "x"
  {
    RemoveAllAfterPrefix(MemberPrefix, "member_x");
    RemoveAllAfterPrefix(MemberPrefix, "x");
    assert DecodeMember("x") == "x";
  }

  // ---------------------------------------------------------------------
  // Bot commands
  // ---------------------------------------------------------------------

  /** ASCII lower case. */
  function Lower(s: string): (r: string)
    ensures |r| == |s|
  {
    if s == [] then []
    else [if 'A' <= s[0] <= 'Z' then (s[0] as int + 32) as char else s[0]] + Lower(s[1..])
  }

  /** The first whitespace-separated word of `text`, as `text.split()[0]`;
      empty when `text` is blank. */
  function FirstWord(text: string): (w: string)
    ensures |w| <= |text|
    ensures forall k | 0 <= k < |w| :: !IsSpace(w[k])
  {
    var i := SkipSpaceFrom(text, 0);
    text[i..WordEnd(text, i)]
  }

  /** The index of the first space at or after `i`, or |s|. */
  function WordEnd(s: string, i: nat): (j: nat)
    requires i <= |s|
    ensures i <= j <= |s|
    ensures forall k | i <= k < j :: !IsSpace(s[k])
    ensures j < |s| ==> IsSpace(s[j])
    decreases |s| - i
  {
    if i < |s| && !IsSpace(s[i]) then WordEnd(s, i + 1) else i
  }

  /** The part of `s` before its first '@', as `s.partition('@')[0]`. */
  function BeforeAt(s: string): (before: string) {
    if s == [] || s[0] == '@' then [] else [s[0]] + BeforeAt(s[1..])
  }

  /** The part of `s` after its first '@', as `s.partition('@')[2]`. */
  function AfterAt(s: string): (after: string) {
    if s == [] then [] else if s[0] == '@' then s[1..] else AfterAt(s[1..])
  }

  /** aiogram's `commands=[name]` filter on a text message: the first word
      is '/' followed by the command, optionally followed by '@' and a
      mention; the command must equal `name` ignoring case, and a mention,
      when present, must name this bot (`botName`), ignoring case. */
  predicate IsCommand(text: string, name: string, botName: string) {
    var w := FirstWord(text);
    && w != []
    && w[0] == '/'
    && Lower(BeforeAt(w[1..])) == name
    && (AfterAt(w[1..]) == [] || Lower(AfterAt(w[1..])) == Lower(botName))
  }

  predicate IsLowerWord(name: string) {
    name != [] && forall k | 0 <= k < |name| :: 'a' <= name[k] <= 'z'
  }

  lemma LowerOfLowerWord(name: string)
    requires forall k | 0 <= k < |name| :: 'a' <= name[k] <= 'z'
    ensures Lower(name) == name
  {
    if name != [] {
      LowerOfLowerWord(name[1..]);
    }
  }

  lemma NoAtInLowerWord(name: string)
    requires forall k | 0 <= k < |name| :: 'a' <= name[k] <= 'z'
    ensures BeforeAt(name) == name && AfterAt(name) == []
  {
    if name != [] {
      NoAtInLowerWord(name[1..]);
    }
  }

  /** A message "/" + `name`, optionally followed by whitespace and
      arguments, passes the filter of command `name` whatever the bot is
      called, and the filter of no other command. */
  lemma CommandWithArguments(name: string, rest: string, botName: string)
    requires IsLowerWord(name)
    requires rest == [] || IsSpace(rest[0])
    ensures IsCommand("/" + name + rest, name, botName)
    ensures forall other :: IsCommand("/" + name + rest, other, botName) ==> other == name
  {
    var text := "/" + name + rest;
    var n := 1 + |name|;
    assert SkipSpaceFrom(text, 0) == 0;
    assert forall k | 1 <= k < n :: text[k] == name[k - 1];
    assert n < |text| ==> text[n] == rest[0];
    assert WordEnd(text, 0) == n;
    assert FirstWord(text) == "/" + name;
    assert FirstWord(text)[1..] == name;
    NoAtInLowerWord(name);
    LowerOfLowerWord(name);
  }

  /** "/cancel" is the cancel command whatever the bot is called, and is not
      the start command. */
  lemma CancelIsCommand(botName: string)
    ensures IsCommand("/cancel", "cancel", botName)
    ensures !IsCommand("/cancel", "start", botName)
  {
    CommandWithArguments("cancel", [], botName);
    assert "/" + "cancel" + [] == "/cancel";
  }

  /** "/start" is the start command and not the cancel command. */
  lemma StartIsCommand(botName: string)
    ensures IsCommand("/start", "start", botName)
    ensures !IsCommand("/start", "cancel", botName)
  {
    CommandWithArguments("start", [], botName);
    assert "/" + "start" + [] == "/start";
  }
}
