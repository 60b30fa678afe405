/**
 * The `chatgpt` command's conversation handling: the allow-list, the
 * choice of rate limiter, the conversation cache and the fallback reply.
 * The rate limiters and the OpenAI call are outside the model: each call
 * receives their verdicts as arguments.
 */
module ChatGpt {
  import opened Basics
  import opened Text

  // ---------------------------------------------------------------------
  // The allow-list: `env.split(/,\s*/)`, or nothing when the variable is unset.
  // ---------------------------------------------------------------------

  /** `s` without its leading `\s` characters (the greedy `\s*`). */
  function DropSpaces(s: string): (r: string)
    ensures |r| <= |s|
    ensures StartsClear(r)
  {
    if s != [] && IsRegexSpace(s[0]) then DropSpaces(s[1..]) else s
  }

  predicate NoComma(p: string) {
    forall j :: 0 <= j < |p| ==> p[j] != ','
  }

  /** `p` does not start with whitespace. */
  predicate StartsClear(p: string) {
    p == [] || !IsRegexSpace(p[0])
  }

  /** `s.split` on the pattern comma-then-`\s*`: the pieces between separators,
      where a separator is a comma with all the whitespace that follows it. */
  function SplitOnCommaSpaces(s: string): (parts: seq<string>)
    ensures parts != []
    decreases |s|
  {
    var i := FirstComma(s);
    if i == |s| then [s] else [s[..i]] + SplitOnCommaSpaces(DropSpaces(s[i + 1..]))
  }

  /** No piece holds a comma, and no piece after the first starts with whitespace. */
  lemma {:induction false} SplitPieces(s: string)
    ensures forall k :: 0 <= k < |SplitOnCommaSpaces(s)| ==> NoComma(SplitOnCommaSpaces(s)[k])
    ensures forall k :: 1 <= k < |SplitOnCommaSpaces(s)| ==> StartsClear(SplitOnCommaSpaces(s)[k])
    decreases |s|
  {
    var i := FirstComma(s);
    var parts := SplitOnCommaSpaces(s);
    if i < |s| {
      var head := s[..i];
      var t := DropSpaces(s[i + 1..]);
      var rest := SplitOnCommaSpaces(t);
      SplitPieces(t);
      assert parts == [head] + rest;
      assert NoComma(head);
      assert StartsClear(rest[0]) by {
        var i' := FirstComma(t);
        if i' < |t| && t[..i'] != [] {
          assert rest[0][0] == t[0];
        }
      }
      forall k | 1 <= k < |parts|
        ensures NoComma(parts[k]) && StartsClear(parts[k])
      {
        assert parts[k] == rest[k - 1];
      }
    }
  }

  /** The pieces joined back with ", ". */
  function JoinWithCommaSpace(parts: seq<string>): string
    requires parts != []
  {
    if |parts| == 1 then parts[0] else parts[0] + ", " + JoinWithCommaSpace(parts[1..])
  }

  lemma {:induction false} JoinStartsWithFirst(parts: seq<string>)
    requires parts != []
    ensures |parts[0]| <= |JoinWithCommaSpace(parts)|
    ensures JoinWithCommaSpace(parts)[..|parts[0]|] == parts[0]
  {
    if |parts| > 1 {
      var j := JoinWithCommaSpace(parts);
      assert j == parts[0] + (", " + JoinWithCommaSpace(parts[1..]));
    }
  }

  /** A join starts clear when its first piece does (an empty first piece
      puts the next comma first). */
  lemma {:induction false} JoinStartsClear(parts: seq<string>)
    requires parts != [] && StartsClear(parts[0])
    ensures StartsClear(JoinWithCommaSpace(parts))
  {
    JoinStartsWithFirst(parts);
    var j := JoinWithCommaSpace(parts);
    if parts[0] != [] {
      assert j[0] == j[..|parts[0]|][0];
    } else if |parts| > 1 {
      assert j == parts[0] + ", " + JoinWithCommaSpace(parts[1..]);
      assert j[0] == ',';
    }
  }

  /** Splitting undoes joining, for pieces without commas whose later pieces
      do not start with whitespace. */
  lemma {:induction false} SplitJoinRoundTrip(parts: seq<string>)
    requires parts != []
    requires forall k :: 0 <= k < |parts| ==> NoComma(parts[k])
    requires forall k :: 1 <= k < |parts| ==> StartsClear(parts[k])
    ensures SplitOnCommaSpaces(JoinWithCommaSpace(parts)) == parts
  {
    var p := parts[0];
    assert NoComma(p);
    if |parts| == 1 {
      FirstCommaOfConcat(p, []);
      assert p + [] == p;
    } else {
      var tail := parts[1..];
      var rest := JoinWithCommaSpace(tail);
      var s := p + ", " + rest;
      assert s == p + (", " + rest);
      FirstCommaOfConcat(p, ", " + rest);
      assert s[..|p|] == p;
      assert s[|p| + 1..] == " " + rest;
      assert NoComma(tail[0]) && StartsClear(tail[0]);
      JoinStartsClear(tail);
      assert DropSpaces(" " + rest) == rest by {
        assert (" " + rest)[1..] == rest;
      }
      assert forall k :: 0 <= k < |tail| ==> NoComma(tail[k]) by {
        forall k | 0 <= k < |tail| ensures NoComma(tail[k]) { assert tail[k] == parts[k + 1]; }
      }
      assert forall k :: 1 <= k < |tail| ==> StartsClear(tail[k]) by {
        forall k | 1 <= k < |tail| ensures StartsClear(tail[k]) { assert tail[k] == parts[k + 1]; }
      }
      SplitJoinRoundTrip(tail);
      assert parts == [p] + tail;
    }
  }

  /** The allow-listed user ids, from the environment variable if it is set. */
  function AllowList(env: Option<string>): (ids: set<string>)
    ensures env.None? ==> ids == {}
    ensures env.Some? ==> forall id :: id in ids <==> id in SplitOnCommaSpaces(env.value)
  {
    if env.None? then {} else set id | id in SplitOnCommaSpaces(env.value)
  }

  /** "a, b,c" allows exactly the users a, b and c. */
  lemma AllowListOfJoin(parts: seq<string>, id: string)
    requires parts != []
    requires forall k :: 0 <= k < |parts| ==> NoComma(parts[k])
    requires forall k :: 1 <= k < |parts| ==> StartsClear(parts[k])
    ensures id in AllowList(Some(JoinWithCommaSpace(parts))) <==> id in parts
  {
    SplitJoinRoundTrip(parts);
  }

  // ---------------------------------------------------------------------
  // Keys, history, reply text
  // ---------------------------------------------------------------------

  datatype Turn = Turn(role: string, content: string)

  function UserTurn(query: string): Turn {
    Turn("user", query)
  }

  /** The `guildId` argument: left out, null, or an id. */
  datatype GuildArg = Undefined | Null | Guild(id: string)

  /** How JavaScript spells the guild argument inside a string concatenation. */
  function GuildText(g: GuildArg): string {
    match g
    case Undefined => "undefined"
    case Null => "null"
    case Guild(id) => id
  }

  /** `userId + guildId`. */
  function ConversationKey(userId: string, guildId: GuildArg): (key: string)
    ensures |userId| <= |key| && key[..|userId|] == userId
  {
    userId + GuildText(guildId)
  }

  /** Two different (user, guild) pairs can share one key, and so one history. */
  lemma KeysCollide(userId: string, c: char, guildId: string)
    ensures (userId, Guild([c] + guildId)) != (userId + [c], Guild(guildId))
    ensures ConversationKey(userId, Guild([c] + guildId)) == ConversationKey(userId + [c], Guild(guildId))
  {
    assert |userId| != |userId + [c]|;
    assert userId + ([c] + guildId) == (userId + [c]) + guildId;
  }

  /** A missing guild and a guild whose id is the text "null" share a key. */
  lemma NullGuildCollides(userId: string)
    ensures ConversationKey(userId, Null) == ConversationKey(userId, Guild("null"))
  {
  }

  /** The history sent: the explicit conversation, else the cached one, else none. */
  function History(explicit: Option<seq<Turn>>, cachingEnabled: bool,
                   conversations: map<string, seq<Turn>>, key: string): (h: seq<Turn>)
    ensures explicit.Some? ==> h == explicit.value
    ensures explicit.None? && cachingEnabled && key in conversations ==> h == conversations[key]
    ensures explicit.None? && !(cachingEnabled && key in conversations) ==> h == []
  {
    if explicit.Some? then explicit.value
    else if cachingEnabled && key in conversations then conversations[key]
    else []
  }

  const FallbackReply := "Something went wrong. Blame Open AI."

  /** `responseMessage?.content || 'Something went wrong. Blame Open AI.'`. */
  function ReplyText(message: Option<Turn>): (text: string)
    ensures text != ""
    ensures message.Some? && message.value.content != "" ==> text == message.value.content
    ensures message.None? || message.value.content == "" ==> text == FallbackReply
  {
    if message.Some? && message.value.content != "" then message.value.content else FallbackReply
  }

  /** A cached history is a run of exchanges, each a user turn followed by a reply. */
  predicate Exchanges(h: seq<Turn>) {
    |h| % 2 == 0 && forall i :: 0 <= i < |h| && i % 2 == 0 ==> h[i].role == "user"
  }

  lemma ExchangesExtend(h: seq<Turn>, query: string, reply: Turn)
    requires Exchanges(h)
    ensures Exchanges(h + [UserTurn(query), reply])
  {
  }

  // ---------------------------------------------------------------------
  // The orchestration: getChatGptResponse
  // ---------------------------------------------------------------------

  datatype LimiterKind = Regular | WhiteListed

  /** The allow-listed limiter governs exactly the allow-listed users. */
  function ChooseLimiter(allowList: set<string>, userId: string): (k: LimiterKind)
    ensures k == WhiteListed <==> userId in allowList
  {
    if userId in allowList then WhiteListed else Regular
  }

  /** One call of a limiter's `attempt`. */
  datatype LimiterAttempt = LimiterAttempt(limiter: LimiterKind, userId: string, guildId: GuildArg)

  /** What the OpenAI call does: throw, or answer with `choices[0].message`. */
  datatype BackendReply = BackendFailed | Completed(message: Option<Turn>)

  datatype ChatError = NotConfigured | RateLimited | BackendError

  const NotConfiguredMessage := "ChatGPT is not configured on the bot."

  /** The new cache entry, when the call stores one. */
  predicate StoresExchange(explicit: Option<seq<Turn>>, cachingEnabled: bool, backend: BackendReply) {
    backend.Completed? && backend.message.Some? && cachingEnabled && explicit.None?
  }

  class ChatGptService {
    /** An OpenAI key is set. */
    const configured: bool
    const allowList: set<string>
    /** A conversation time limit is set, so `conversations` exists. */
    const cachingEnabled: bool
    var conversations: map<string, seq<Turn>>
    /** Every limiter attempt made so far, in order. */
    var attempts: seq<LimiterAttempt>

    ghost predicate Valid()
      reads this
    {
      && (!cachingEnabled ==> conversations == map[])
      && forall key :: key in conversations ==> Exchanges(conversations[key])
    }

    constructor (apiKey: string, conversationTimeLimit: Option<string>, whiteListEnv: Option<string>)
      ensures Valid()
      ensures configured == (apiKey != "")
      ensures cachingEnabled == (conversationTimeLimit.Some? && conversationTimeLimit.value != "")
      ensures allowList == AllowList(whiteListEnv)
      ensures conversations == map[] && attempts == []
    {
      configured := apiKey != "";
      cachingEnabled := conversationTimeLimit.Some? && conversationTimeLimit.value != "";
      allowList := AllowList(whiteListEnv);
      conversations := map[];
      attempts := [];
    }

    /**
     * getChatGptResponse. `limiterAllows` is the chosen limiter's verdict and
     * `backend` the OpenAI call's outcome. `sent` is the message list handed
     * to the backend, when the call gets that far.
     */
    method GetResponse(query: string, userId: string, guildId: GuildArg, conversation: Option<seq<Turn>>,
                       limiterAllows: bool, backend: BackendReply)
      returns (r: Result<string, ChatError>, sent: Option<seq<Turn>>)
      requires Valid()
      modifies this
      ensures Valid()
      ensures !configured ==>
                r == Failure(NotConfigured) && sent.None? && attempts == old(attempts)
      ensures configured ==>
                attempts == old(attempts) + [LimiterAttempt(ChooseLimiter(allowList, userId), userId, guildId)]
      ensures configured && !limiterAllows ==> r == Failure(RateLimited) && sent.None?
      ensures configured && limiterAllows ==>
                sent == Some(History(conversation, cachingEnabled, old(conversations), ConversationKey(userId, guildId))
                             + [UserTurn(query)])
      ensures configured && limiterAllows && backend.BackendFailed? ==> r == Failure(BackendError)
      ensures configured && limiterAllows && backend.Completed? ==> r == Success(ReplyText(backend.message))
      ensures conversations ==
                if configured && limiterAllows && StoresExchange(conversation, cachingEnabled, backend)
                then
                  var key := ConversationKey(userId, guildId);
                  var prior := if key in old(conversations) then old(conversations)[key] else [];
                  old(conversations)[key := prior + [UserTurn(query), backend.message.value]]
                else old(conversations)
    {
      if !configured {
        return Failure(NotConfigured), None;
      }
      var limiter := ChooseLimiter(allowList, userId);
      attempts := attempts + [LimiterAttempt(limiter, userId, guildId)];
      if !limiterAllows {
        return Failure(RateLimited), None;
      }
      var key := ConversationKey(userId, guildId);
      var history := if conversation.Some? then conversation.value
                     else if cachingEnabled && key in conversations then conversations[key]
                     else [];
      sent := Some(history + [UserTurn(query)]);
      if backend.BackendFailed? {
        return Failure(BackendError), sent;
      }
      var responseMessage := backend.message;
      if responseMessage.Some? && cachingEnabled && conversation.None? {
        var prior := if key in conversations then conversations[key] else [];
        var entry := prior + [UserTurn(query), responseMessage.value];
        ExchangesExtend(prior, query, responseMessage.value);
        var updated := conversations[key := entry];
        forall k | k in updated ensures Exchanges(updated[k]) {
          if k != key { assert updated[k] == conversations[k]; }
        }
        conversations := updated;
      }
      r := Success(ReplyText(responseMessage));
    }

    /** The cache's time-to-live sweep dropping one entry. */
    method Expire(key: string)
      requires Valid()
      modifies this`conversations
      ensures Valid()
      ensures conversations == old(conversations) - {key}
    {
      conversations := conversations - {key};
    }

    /** What a call without explicit history would send next, under a key. */
    function CachedHistory(key: string): (h: seq<Turn>)
      reads this
      requires Valid()
      ensures Exchanges(h)
      ensures !cachingEnabled ==> h == []
    {
      History(None, cachingEnabled, conversations, key)
    }
  }

  /** A user seen for the first time ends up with exactly one exchange cached. */
  method FirstExchange(service: ChatGptService, query: string, userId: string, guildId: GuildArg, reply: Turn)
    requires service.Valid() && service.configured && service.cachingEnabled
    requires ConversationKey(userId, guildId) !in service.conversations
    modifies service
    ensures service.Valid()
    ensures service.CachedHistory(ConversationKey(userId, guildId)) == [UserTurn(query), reply]
  {
    var r, sent := service.GetResponse(query, userId, guildId, None, true, Completed(Some(reply)));
  }

  /** A failed backend call leaves the cached history as it was. */
  method FailedCallKeepsHistory(service: ChatGptService, query: string, userId: string, guildId: GuildArg,
                                limiterAllows: bool)
    requires service.Valid()
    modifies service
    ensures service.Valid()
    ensures service.CachedHistory(ConversationKey(userId, guildId))
            == old(service.CachedHistory(ConversationKey(userId, guildId)))
  {
    var r, sent := service.GetResponse(query, userId, guildId, None, limiterAllows, BackendFailed);
  }
}
