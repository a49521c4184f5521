/**
 * The chat page: `@`-mentions in the input open a RAG-set picker filtered by
 * what follows the `@`; picking a set removes the mention; sending appends the
 * question and then exactly one answer to the conversation.
 */
module ChatPage {
  import opened Wrappers
  import opened JsString
  import opened Http
  import Store
  import ChatSend

  const MsgNoResponse := "응답을 생성할 수 없습니다."
  const MsgResponseError := "죄송합니다. 응답을 생성하는 중에 오류가 발생했습니다."
  const MsgNetworkError := "네트워크 오류가 발생했습니다. 다시 시도해주세요."

  /** A RAG set as the page lists it. */
  datatype RagOption = RagOption(id: string, name: string, description: Option<string>, status: string, documentCount: nat)

  datatype Speaker = User | Assistant

  /** A conversation entry; ids and timestamps come from the clock and are left out. */
  datatype PageMessage = PageMessage(role: Speaker, content: string, referencedDocs: Option<seq<Store.DocRef>>)

  /** How a send ended: an ok response with its `response` and `referencedDocs`, a non-ok one, or a thrown fetch. */
  datatype ChatOutcome = Answered(response: Option<string>, docs: Option<seq<Store.DocRef>>) | Refused | Threw

  // ---------------------------------------------------------------- @-mentions

  /** The position of the last `@` at or before the character before the cursor, or -1. */
  function MentionStart(value: string, cursor: nat): (at: int)
    ensures -1 <= at < |value|
    ensures at >= 0 ==> value[at] == '@'
  {
    LastIndexOf(value, '@', cursor - 1)
  }

  /**
   * `handleInputChange`'s decision: the search query when the `@` found is at
   * the start or follows a space, None (dropdown closed) otherwise.
   */
  function Mention(value: string, cursor: nat): (q: Option<string>)
    ensures var at := MentionStart(value, cursor);
      q.Some? <==> at != -1 && (at == 0 || value[at - 1] == ' ')
  {
    var at := MentionStart(value, cursor);
    if at != -1 && (at == 0 || value[at - 1] == ' ') then Some(Substring(value, at + 1, cursor)) else None
  }

  /**
   * With the cursor inside the text, an open dropdown's query is exactly the
   * text between the `@` and the cursor, and that text holds no further `@`.
   */
  lemma MentionQueryIsTypedText(value: string, cursor: nat)
    requires 0 < cursor <= |value|
    requires Mention(value, cursor).Some?
    ensures var at := MentionStart(value, cursor);
      && 0 <= at < cursor
      && Mention(value, cursor).value == value[at + 1..cursor]
      && value[at..cursor] == "@" + Mention(value, cursor).value
      && forall j :: at < j < cursor ==> value[j] != '@'
  {
  }

  /** `selectRagSet`'s edit: the text from the last `@` before the cursor up to the cursor is removed. */
  function RemoveMention(value: string, cursor: nat): string {
    var at := MentionStart(value, cursor);
    if at != -1 then Substring(value, 0, at) + Substring(value, cursor, |value|) else value
  }

  /**
   * Picking a set after typing a mention removes exactly `@` and the query,
   * keeping the text before the `@` and after the cursor.
   */
  lemma MentionRemovedExactly(value: string, cursor: nat)
    requires 0 < cursor <= |value|
    requires Mention(value, cursor).Some?
    ensures var at := MentionStart(value, cursor);
      var q := Mention(value, cursor).value;
      && value == value[..at] + "@" + q + value[cursor..]
      && RemoveMention(value, cursor) == value[..at] + value[cursor..]
      && |RemoveMention(value, cursor)| == |value| - |q| - 1
  {
    var at := MentionStart(value, cursor);
    MentionQueryIsTypedText(value, cursor);
    assert value == value[..at] + value[at..cursor] + value[cursor..];
  }

  /**
   * With the cursor before everything, `lastIndexOf('@', -1)` still looks at
   * position 0, and `substring(1, 0)` swaps its bounds: a text starting with
   * `@` opens the dropdown with the query `@`.
   */
  lemma CursorAtStartOpensDropdown(rest: string)
    ensures Mention("@" + rest, 0) == Some("@")
    ensures RemoveMention("@" + rest, 0) == "@" + rest
  {
    var v := "@" + rest;
    assert v[0] == '@';
    assert v[0..1] == "@";
  }

  /** A mention typed before the cursor: the `@` must lie strictly before the cursor. */
  function MentionBeforeCursor(value: string, cursor: nat): (q: Option<string>)
    ensures q.Some? ==> 0 < cursor
  {
    if cursor == 0 then None else Mention(value, cursor)
  }

  /**
   * The corrected decision opens the dropdown only for a mention typed before
   * the cursor, and its query is then always the text between them.
   */
  lemma MentionBeforeCursorIsTyped(value: string, cursor: nat)
    requires cursor <= |value|
    ensures var q := MentionBeforeCursor(value, cursor);
      && (cursor > 0 ==> q == Mention(value, cursor))
      && (q.Some? ==> var at := MentionStart(value, cursor);
            0 <= at < cursor && value[at..cursor] == "@" + q.value)
  {
    if MentionBeforeCursor(value, cursor).Some? {
      MentionQueryIsTypedText(value, cursor);
    }
  }

  // ---------------------------------------------------------------- the filter

  /** Case-insensitive containment, as `a.toLowerCase().includes(b.toLowerCase())`. */
  predicate ContainsIgnoringCase(a: string, b: string) {
    Includes(ToLower(a), ToLower(b))
  }

  /** The set's name, or its (non-empty) description, contains the query. */
  predicate MatchesQuery(r: RagOption, query: string) {
    ContainsIgnoringCase(r.name, query) || (Truthy(r.description) && ContainsIgnoringCase(r.description.value, query))
  }

  /** `filteredRagSets`: the matching sets, in list order. */
  function FilterRagSets(sets: seq<RagOption>, query: string): (r: seq<RagOption>)
    ensures |r| <= |sets|
    ensures forall x :: x in r <==> x in sets && MatchesQuery(x, query)
  {
    if sets == [] then []
    else (if MatchesQuery(sets[0], query) then [sets[0]] else []) + FilterRagSets(sets[1..], query)
  }

  /** Filtering a concatenation filters each part, so the kept sets keep their list order. */
  lemma {:induction false} FilterAppend(a: seq<RagOption>, b: seq<RagOption>, query: string)
    ensures FilterRagSets(a + b, query) == FilterRagSets(a, query) + FilterRagSets(b, query)
  {
    if a == [] {
      assert a + b == b;
    } else {
      var head := if MatchesQuery(a[0], query) then [a[0]] else [];
      assert (a + b)[0] == a[0] && (a + b)[1..] == a[1..] + b;
      assert FilterRagSets(a + b, query) == head + FilterRagSets(a[1..] + b, query);
      FilterAppend(a[1..], b, query);
      assert FilterRagSets(a, query) == head + FilterRagSets(a[1..], query);
    }
  }

  /** The first kept set, the one Enter picks, is the first matching set of the list. */
  lemma {:induction false} FirstKeptIsFirstMatch(sets: seq<RagOption>, query: string)
    requires FilterRagSets(sets, query) != []
    ensures exists i ::
              && 0 <= i < |sets| && MatchesQuery(sets[i], query)
              && (forall j :: 0 <= j < i ==> !MatchesQuery(sets[j], query))
              && FilterRagSets(sets, query)[0] == sets[i]
  {
    if MatchesQuery(sets[0], query) {
      assert FilterRagSets(sets, query)[0] == sets[0];
    } else {
      assert FilterRagSets(sets, query) == FilterRagSets(sets[1..], query);
      FirstKeptIsFirstMatch(sets[1..], query);
      var i :| 0 <= i < |sets[1..]| && MatchesQuery(sets[1..][i], query)
        && (forall j :: 0 <= j < i ==> !MatchesQuery(sets[1..][j], query))
        && FilterRagSets(sets[1..], query)[0] == sets[1..][i];
      forall j | 0 <= j < i + 1
        ensures !MatchesQuery(sets[j], query)
      {
        if j > 0 {
          assert sets[j] == sets[1..][j - 1];
        }
      }
      assert sets[i + 1] == sets[1..][i];
    }
  }

  /** An empty query keeps every set, in order. */
  lemma {:induction false} EmptyQueryKeepsAll(sets: seq<RagOption>)
    ensures FilterRagSets(sets, "") == sets
  {
    if sets != [] {
      IncludesEmpty(ToLower(sets[0].name));
      assert ToLower("") == "";
      EmptyQueryKeepsAll(sets[1..]);
    }
  }

  /** Filtering twice by the same query changes nothing more. */
  lemma {:induction false} FilterIdempotent(sets: seq<RagOption>, query: string)
    ensures FilterRagSets(FilterRagSets(sets, query), query) == FilterRagSets(sets, query)
  {
    if sets != [] {
      var rest := FilterRagSets(sets[1..], query);
      FilterIdempotent(sets[1..], query);
      if MatchesQuery(sets[0], query) {
        var once := [sets[0]] + rest;
        assert once[0] == sets[0] && once[1..] == rest;
        assert FilterRagSets(once, query) == [sets[0]] + FilterRagSets(rest, query);
      } else {
        assert FilterRagSets(sets, query) == rest;
      }
    }
  }

  /** The query's case does not matter. */
  lemma QueryCaseIgnored(sets: seq<RagOption>, query: string)
    ensures FilterRagSets(sets, ToLower(query)) == FilterRagSets(sets, query)
  {
    assert ToLower(ToLower(query)) == ToLower(query);
    assert forall r :: MatchesQuery(r, ToLower(query)) == MatchesQuery(r, query);
    FilterSameMatches(sets, ToLower(query), query);
  }

  lemma {:induction false} FilterSameMatches(sets: seq<RagOption>, q1: string, q2: string)
    requires forall r :: MatchesQuery(r, q1) == MatchesQuery(r, q2)
    ensures FilterRagSets(sets, q1) == FilterRagSets(sets, q2)
  {
    if sets != [] {
      FilterSameMatches(sets[1..], q1, q2);
    }
  }

  // ---------------------------------------------------------------- sending

  /** The assistant entry a send appends for each outcome. */
  function AnswerFor(outcome: ChatOutcome): (m: PageMessage)
    ensures m.role == Assistant && m.content != ""
  {
    match outcome
    case Answered(response, docs) =>
      PageMessage(Assistant, if Truthy(response) then response.value else MsgNoResponse, Some(docs.GetOr([])))
    case Refused => PageMessage(Assistant, MsgResponseError, None)
    case Threw => PageMessage(Assistant, MsgNetworkError, None)
  }

  /** The body the page posts: the trimmed question, the agent, the picked set's id, and the fixed session `default`. */
  function SendRequest(content: string, agentId: string, picked: Option<RagOption>): ChatSend.SendBody {
    ChatSend.SendBody(Some(content), Some(agentId), if picked.Some? then Some(picked.value.id) else None,
                      Some(ChatSend.DefaultSession))
  }

  /** The page always sends session `default`, which the server never looks up: every send opens a new session. */
  lemma EverySendOpensNewSession(content: string, agentId: string, picked: Option<RagOption>)
    ensures !ChatSend.LooksUpSession(SendRequest(content, agentId, picked).sessionId)
  {
  }

  class Page {
    var messages: seq<PageMessage>
    var inputValue: string
    var loading: bool
    var selectedAgent: string
    var selectedRagSet: Option<RagOption>
    var ragSets: seq<RagOption>
    var showRagDropdown: bool
    var ragSearchQuery: string
    var cursorPosition: nat
    /** The requests sent, oldest first. */
    var sent: seq<ChatSend.SendBody>

    /** The page as first rendered, before the agents and sets arrive. */
    constructor ()
      ensures messages == [] && inputValue == "" && !loading && selectedAgent == "" && selectedRagSet.None?
      ensures ragSets == [] && !showRagDropdown && ragSearchQuery == "" && cursorPosition == 0 && sent == []
    {
      messages, inputValue, loading, selectedAgent, selectedRagSet := [], "", false, "", None;
      ragSets, showRagDropdown, ragSearchQuery, cursorPosition, sent := [], false, "", 0, [];
    }

    /** `filteredRagSets` for the current query. */
    function Filtered(): seq<RagOption>
      reads this
    {
      FilterRagSets(ragSets, ragSearchQuery)
    }

    /** `handleInputChange`: the text and cursor are recorded, and the dropdown follows the mention rule. */
    method HandleInputChange(value: string, cursor: nat)
      modifies this`inputValue, this`cursorPosition, this`showRagDropdown, this`ragSearchQuery
      ensures inputValue == value && cursorPosition == cursor
      ensures showRagDropdown <==> Mention(value, cursor).Some?
      ensures ragSearchQuery == Mention(value, cursor).GetOr("")
    {
      inputValue := value;
      cursorPosition := cursor;
      var atIndex := LastIndexOf(value, '@', cursor - 1);
      if atIndex != -1 && (atIndex == 0 || value[atIndex - 1] == ' ') {
        ragSearchQuery := Substring(value, atIndex + 1, cursor);
        showRagDropdown := true;
      } else {
        showRagDropdown := false;
        ragSearchQuery := "";
      }
    }

    /** `selectRagSet`: the set is picked, the dropdown closes and the mention is removed from the text. */
    method SelectRagSet(r: RagOption)
      modifies this`selectedRagSet, this`showRagDropdown, this`inputValue
      ensures selectedRagSet == Some(r) && !showRagDropdown
      ensures inputValue == RemoveMention(old(inputValue), cursorPosition)
    {
      selectedRagSet := Some(r);
      showRagDropdown := false;
      var atIndex := LastIndexOf(inputValue, '@', cursorPosition - 1);
      if atIndex != -1 {
        var beforeAt := Substring(inputValue, 0, atIndex);
        var afterCursor := Substring(inputValue, cursorPosition, |inputValue|);
        inputValue := beforeAt + afterCursor;
      }
    }

    /**
     * `sendMessage`: nothing happens for a blank input or without an agent;
     * otherwise the trimmed question is appended and sent, the input cleared,
     * and exactly one answer appended for the outcome.
     */
    method SendMessage(respond: ChatSend.SendBody -> ChatOutcome)
      modifies this`messages, this`inputValue, this`loading, this`sent
      ensures Trim(old(inputValue)) == "" || old(selectedAgent) == "" ==>
        messages == old(messages) && inputValue == old(inputValue) && loading == old(loading) && sent == old(sent)
      ensures Trim(old(inputValue)) != "" && old(selectedAgent) != "" ==>
        var request := SendRequest(Trim(old(inputValue)), selectedAgent, selectedRagSet);
        && sent == old(sent) + [request]
        && messages == old(messages) + [PageMessage(User, Trim(old(inputValue)), None), AnswerFor(respond(request))]
        && inputValue == "" && !loading
    {
      if Trim(inputValue) == "" || selectedAgent == "" {
        return;
      }
      var content := Trim(inputValue);
      messages := messages + [PageMessage(User, content, None)];
      inputValue := "";
      loading := true;
      var request := ChatSend.SendBody(Some(content), Some(selectedAgent),
                                       if selectedRagSet.Some? then Some(selectedRagSet.value.id) else None,
                                       Some(ChatSend.DefaultSession));
      sent := sent + [request];
      var outcome := respond(request);
      var answer: PageMessage;
      match outcome {
        case Answered(response, docs) =>
          answer := PageMessage(Assistant, if Truthy(response) then response.value else MsgNoResponse,
                                Some(if docs.Some? then docs.value else []));
        case Refused =>
          answer := PageMessage(Assistant, MsgResponseError, None);
        case Threw =>
          answer := PageMessage(Assistant, MsgNetworkError, None);
      }
      messages := messages + [answer];
      loading := false;
    }

    /**
     * `handleKeyPress`: Enter without Shift picks the first listed set while
     * the dropdown is open and the list is not empty, and sends otherwise;
     * Escape closes the dropdown.
     */
    method HandleKeyPress(key: string, shift: bool, respond: ChatSend.SendBody -> ChatOutcome)
      modifies this`messages, this`inputValue, this`loading, this`sent, this`selectedRagSet, this`showRagDropdown
      ensures key == "Enter" && !shift && old(showRagDropdown) && |old(Filtered())| > 0 ==>
        && selectedRagSet == Some(old(Filtered())[0]) && !showRagDropdown
        && inputValue == RemoveMention(old(inputValue), cursorPosition)
        && messages == old(messages) && loading == old(loading) && sent == old(sent)
      ensures key == "Enter" && !shift && !(old(showRagDropdown) && |old(Filtered())| > 0) ==>
        && selectedRagSet == old(selectedRagSet) && showRagDropdown == old(showRagDropdown)
        && (Trim(old(inputValue)) == "" || selectedAgent == "" ==>
              messages == old(messages) && inputValue == old(inputValue) && loading == old(loading) && sent == old(sent))
        && (Trim(old(inputValue)) != "" && selectedAgent != "" ==>
              var request := SendRequest(Trim(old(inputValue)), selectedAgent, selectedRagSet);
              && sent == old(sent) + [request]
              && messages == old(messages) + [PageMessage(User, Trim(old(inputValue)), None), AnswerFor(respond(request))]
              && inputValue == "" && !loading)
      ensures key == "Escape" ==>
        && !showRagDropdown && selectedRagSet == old(selectedRagSet)
        && messages == old(messages) && inputValue == old(inputValue) && loading == old(loading) && sent == old(sent)
      ensures (key != "Enter" || shift) && key != "Escape" ==>
        && showRagDropdown == old(showRagDropdown) && selectedRagSet == old(selectedRagSet)
        && messages == old(messages) && inputValue == old(inputValue) && loading == old(loading) && sent == old(sent)
    {
      if key == "Enter" && !shift {
        var filtered := FilterRagSets(ragSets, ragSearchQuery);
        if showRagDropdown && |filtered| > 0 {
          SelectRagSet(filtered[0]);
        } else {
          SendMessage(respond);
        }
      } else if key == "Escape" {
        showRagDropdown := false;
      }
    }
  }
}
