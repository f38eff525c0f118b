/** The search page (frontend_typescript/src/pages/SearchPage.tsx): the trimmed search term,
    the empty-term guard, the request, the classification of the reply, and the colour the
    resulting message is shown in. The reply (or the failure of `fetch`) is a parameter. */
module Search {
  import opened Wrappers
  import opened Text
  import opened Js
  import AddFood

  // ---------------------------------------------------------------------------------------
  // String.prototype.trim

  /** The characters `trim()` removes: ECMAScript WhiteSpace and LineTerminator. */
  predicate IsJsWhitespace(c: char) {
    || c == '\t' || c == '\n' || c == 0x0B as char || c == 0x0C as char || c == '\r' || c == ' '
    || c == 0xA0 as char || c == 0x1680 as char || (0x2000 as char <= c <= 0x200A as char)
    || c == 0x2028 as char || c == 0x2029 as char || c == 0x202F as char || c == 0x205F as char
    || c == 0x3000 as char || c == 0xFEFF as char
  }

  /** `trimStart()`: the suffix left after dropping the leading whitespace. */
  function TrimStart(s: string): (r: string)
    ensures |r| <= |s| && r == s[|s| - |r|..]
    ensures forall k :: 0 <= k < |s| - |r| ==> IsJsWhitespace(s[k])
    ensures r != [] ==> !IsJsWhitespace(r[0])
    decreases |s|
  {
    if s == [] || !IsJsWhitespace(s[0]) then s else TrimStart(s[1..])
  }

  /** `trimEnd()`: the prefix left after dropping the trailing whitespace. */
  function TrimEnd(s: string): (r: string)
    ensures |r| <= |s| && r == s[..|r|]
    ensures forall k :: |r| <= k < |s| ==> IsJsWhitespace(s[k])
    ensures r != [] ==> !IsJsWhitespace(r[|r| - 1])
    decreases |s|
  {
    if s == [] || !IsJsWhitespace(s[|s| - 1]) then s else TrimEnd(s[..|s| - 1])
  }

  /** `r` is the piece of `s` starting at `i`, and everything of `s` around it is whitespace. */
  predicate PieceAmidWhitespace(s: string, r: string, i: int) {
    && 0 <= i <= |s| - |r| && r == s[i..i + |r|]
    && (forall k :: 0 <= k < i ==> IsJsWhitespace(s[k]))
    && (forall k :: i + |r| <= k < |s| ==> IsJsWhitespace(s[k]))
  }

  /** `trim()`: `s` without its leading and trailing whitespace. */
  function Trim(s: string): (r: string)
    ensures r != [] ==> !IsJsWhitespace(r[0]) && !IsJsWhitespace(r[|r| - 1])
  {
    TrimEnd(TrimStart(s))
  }

  /** A prefix `r` of the suffix `a` of `s` that starts at `i`, with whitespace on both sides,
      is a piece of `s` amid whitespace. */
  lemma PrefixOfSuffixAmidWhitespace(s: string, a: string, r: string, i: int)
    requires 0 <= i <= |s| && a == s[i..]
    requires |r| <= |a| && r == a[..|r|]
    requires forall k :: 0 <= k < i ==> IsJsWhitespace(s[k])
    requires forall k :: |r| <= k < |a| ==> IsJsWhitespace(a[k])
    ensures PieceAmidWhitespace(s, r, i)
  {
    forall k | i + |r| <= k < |s|
      ensures IsJsWhitespace(s[k])
    {
      assert s[k] == a[k - i];
    }
  }

  /** What `trim()` removes is all whitespace, and what it keeps is a contiguous piece of `s`. */
  lemma TrimIsPieceOfInput(s: string)
    ensures exists i :: PieceAmidWhitespace(s, Trim(s), i)
  {
    var a := TrimStart(s);
    var r := TrimEnd(a);
    PrefixOfSuffixAmidWhitespace(s, a, r, |s| - |a|);
    assert r == Trim(s);
  }

  /** An all-whitespace term, and only such a term, trims to the empty string. */
  lemma {:induction false} TrimEmptyIffBlank(s: string)
    ensures Trim(s) == [] <==> forall k :: 0 <= k < |s| ==> IsJsWhitespace(s[k])
  {
    var r := Trim(s);
    TrimIsPieceOfInput(s);
    var i :| PieceAmidWhitespace(s, r, i);
    if r != [] {
      assert s[i] == r[0];
    }
  }

  /** Trimming twice is trimming once. */
  lemma TrimIdempotent(s: string)
    ensures Trim(Trim(s)) == Trim(s)
  {
    var r := Trim(s);
    if r != [] {
      assert TrimStart(r) == r;
      assert TrimEnd(r) == r;
    }
  }

  // ---------------------------------------------------------------------------------------
  // handleSearch

  const EmptyTermMessage: string := "请输入要搜索的产品ID。"
  const UnknownSearchError: string := "搜索时发生未知错误。"
  const RequestPrefix: string := "/api/food-records/"
  const DetailPrefix: string := "/food/"

  /** The reply of `fetch`: its status and, for a failure reply, the `message` of its JSON
      body (`None` when the body is not JSON or has no message). */
  datatype SearchReply = SearchReply(status: nat, bodyMessage: Option<string>) {
    /** `response.ok`. */
    predicate Ok() {
      200 <= status <= 299
    }
  }

  /** What the `catch` receives: an `Error` with its message, or any other value. */
  datatype Failure = ErrorInstance(message: string) | NonError

  function FoundMessage(term: string): (m: string)
    ensures Contains(m, term)
  {
    ContainsInfix("找到产品ID: ", term, "，正在跳转到详情页...");
    "找到产品ID: " + term + "，正在跳转到详情页..."
  }

  function NotFoundMessage(term: string): (m: string)
    ensures StartsWith(m, "未找到") && Contains(m, term)
  {
    ContainsInfix("未找到产品ID为 \"", term, "\" 的食品记录。");
    "未找到产品ID为 \"" + term + "\" 的食品记录。"
  }

  /** `errorData.message || \`搜索失败，服务器返回状态: ${response.status}\``. */
  function ServerFailureText(reply: SearchReply): (m: string)
    ensures Truthy(reply.bodyMessage) ==> m == reply.bodyMessage.value
    ensures !Truthy(reply.bodyMessage) ==> m == "搜索失败，服务器返回状态: " + NatToString(reply.status)
  {
    OrElse(reply.bodyMessage, "搜索失败，服务器返回状态: " + NatToString(reply.status))
  }

  /** The text the `catch` block shows. */
  function CaughtMessage(f: Failure): (m: string)
    ensures f.ErrorInstance? ==> m == "错误: " + f.message
    ensures f.NonError? ==> m == UnknownSearchError
  {
    match f
    case ErrorInstance(msg) => "错误: " + msg
    case NonError => UnknownSearchError
  }

  /** The page state: the input's value, the loading flag, the message, the last request
      path, and the page navigated to. */
  datatype SearchState = SearchState(
    searchTerm: string,
    isLoading: bool,
    message: Option<string>,
    lastRequest: Option<string>,
    navigatedTo: Option<string>)

  /** `handleSearch` as one step: `outcome` is the reply of `fetch`, or what it failed with. */
  function AfterSearch(s: SearchState, outcome: Result<SearchReply, Failure>): SearchState
  {
    var term := Trim(s.searchTerm);
    if term == "" then s.(message := Some(EmptyTermMessage))
    else
      var request := Some(RequestPrefix + term);
      var (message, navigatedTo) := match outcome
        case Err(f) => (CaughtMessage(f), s.navigatedTo)
        case Ok(reply) =>
          if reply.Ok() then (FoundMessage(term), Some(DetailPrefix + term))
          else if reply.status == 404 then (NotFoundMessage(term), s.navigatedTo)
          else (CaughtMessage(ErrorInstance(ServerFailureText(reply))), s.navigatedTo);
      s.(isLoading := false, message := Some(message), lastRequest := request, navigatedTo := navigatedTo)
  }

  /** What `handleSearch` leaves behind: a blank term only sets the prompt; otherwise the
      trimmed term is requested, loading ends, and the message and navigation follow the
      outcome. */
  lemma AfterSearchOutcomes(s: SearchState, outcome: Result<SearchReply, Failure>)
    ensures var t := AfterSearch(s, outcome);
      var term := Trim(s.searchTerm);
      && t.searchTerm == s.searchTerm
      && (term == "" ==> t == s.(message := Some(EmptyTermMessage)))
      && (term != "" ==>
        && !t.isLoading
        && t.lastRequest == Some(RequestPrefix + term)
        && (outcome.Ok? && outcome.value.Ok() ==>
              t.message == Some(FoundMessage(term)) && t.navigatedTo == Some(DetailPrefix + term))
        && (outcome.Ok? && outcome.value.status == 404 ==>
              t.message == Some(NotFoundMessage(term)) && t.navigatedTo == s.navigatedTo)
        && (outcome.Ok? && !outcome.value.Ok() && outcome.value.status != 404 ==>
              t.message == Some("错误: " + ServerFailureText(outcome.value)) && t.navigatedTo == s.navigatedTo)
        && (outcome.Err? ==> t.message == Some(CaughtMessage(outcome.error)) && t.navigatedTo == s.navigatedTo))
  {
  }

  /** The colour rule of the message: red when it starts with "错误" or contains "未找到". */
  predicate IsRed(m: string) {
    StartsWith(m, "错误") || Contains(m, "未找到")
  }

  /** A string with neither '错' nor '未' in it is shown green. */
  lemma GreenWithoutMarkers(m: string)
    requires forall k :: 0 <= k < |m| ==> m[k] != '错' && m[k] != '未'
    ensures !IsRed(m)
  {
    AbsentCharNotContained(m, "未找到");
    FirstCharRulesOutPrefix(m, "错误");
  }

  /** The not-found and error messages are red; the prompt for an empty term is green, and so is
      the found message for any valid product id. */
  lemma MessageColours(term: string, reply: SearchReply, msg: string)
    requires AddFood.IsValidProductId(term)
    ensures IsRed(NotFoundMessage(term))
    ensures IsRed(CaughtMessage(ErrorInstance(msg)))
    ensures IsRed("错误: " + ServerFailureText(reply))
    ensures !IsRed(EmptyTermMessage)
    ensures !IsRed(FoundMessage(term))
  {
    StartsWithContains(NotFoundMessage(term), "未找到");
    assert ("错误: " + msg)[..|"错误"|] == "错误";
    assert ("错误: " + ServerFailureText(reply))[..|"错误"|] == "错误";
    GreenWithoutMarkers(EmptyTermMessage);
    var m := FoundMessage(term);
    forall k | 0 <= k < |m| ensures m[k] != '错' && m[k] != '未' {
      if |"找到产品ID: "| <= k < |"找到产品ID: "| + |term| {
        assert m[k] == term[k - |"找到产品ID: "|];
      }
    }
    GreenWithoutMarkers(m);
  }

  /** The text shown when something other than an `Error` was thrown describes a failure but
      is shown green: it neither starts with "错误" nor contains "未找到". */
  lemma UnknownErrorShownGreen()
    ensures !IsRed(CaughtMessage(NonError))
  {
    var m := UnknownSearchError;
    assert |m| == 10 && m[0] == '搜';
    FirstCharRulesOutPrefix(m, "错误");
    forall i | 0 <= i <= |m| ensures !OccursAt(m, "未找到", i) {
      if i + 3 <= |m| {
        assert m[i..i + 3][0] == m[i] && m[i..i + 3][1] == m[i + 1];
        assert i == 0 || i == 1 || i == 2 || i == 3 || i == 4 || i == 5 || i == 6 || i == 7;
      }
    }
  }

  /** The term goes into the request path as it is (no encoding): a valid product id fills the
      last path segment exactly, while a term with a '/' in it adds segments. */
  lemma RequestPathUnencoded(s: SearchState, outcome: Result<SearchReply, Failure>)
    requires Trim(s.searchTerm) != ""
    ensures var path := AfterSearch(s, outcome).lastRequest.value;
      StartsWith(path, RequestPrefix) && path[|RequestPrefix|..] == Trim(s.searchTerm)
  {
  }

  /** The component's state, updated in place by its handlers. */
  class SearchPage {
    var searchTerm: string
    var isLoading: bool
    var message: Option<string>
    var lastRequest: Option<string>
    var navigatedTo: Option<string>

    function Snapshot(): SearchState
      reads this
    {
      SearchState(searchTerm, isLoading, message, lastRequest, navigatedTo)
    }

    constructor ()
      ensures Snapshot() == SearchState("", false, None, None, None)
    {
      searchTerm := "";
      isLoading := false;
      message := None;
      lastRequest := None;
      navigatedTo := None;
    }

    /** The input's `onChange`. */
    method SetSearchTerm(value: string)
      modifies this
      ensures Snapshot() == old(Snapshot()).(searchTerm := value)
    {
      searchTerm := value;
    }

    method HandleSearch(outcome: Result<SearchReply, Failure>)
      modifies this
      ensures Snapshot() == AfterSearch(old(Snapshot()), outcome)
    {
      var trimmedSearchTerm := Trim(searchTerm);
      if trimmedSearchTerm == "" {
        message := Some(EmptyTermMessage);
        return;
      }
      isLoading := true;
      message := None;
      lastRequest := Some(RequestPrefix + trimmedSearchTerm);
      match outcome {
        case Err(f) =>
          // the `catch` block
          message := Some(CaughtMessage(f));
        case Ok(reply) =>
          if reply.Ok() {
            message := Some(FoundMessage(trimmedSearchTerm));
            navigatedTo := Some(DetailPrefix + trimmedSearchTerm);
          } else if reply.status == 404 {
            message := Some(NotFoundMessage(trimmedSearchTerm));
          } else {
            // the `Error` thrown for any other status, caught at once
            message := Some(CaughtMessage(ErrorInstance(ServerFailureText(reply))));
          }
      }
      isLoading := false;
    }
  }
}
