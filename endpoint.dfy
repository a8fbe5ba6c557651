/** `buildChatUrl` and `buildWebSocketUrl`: from the address the user typed to the
    chat endpoint with its fixed generation settings, and from there to the
    WebSocket endpoint the connection probe opens. */
module Endpoint {
  import opened Text
  import opened Address
  import opened SearchParams

  datatype Option<T> = None | Some(value: T)

  /** A parsed URL as the page uses it: `protocol` with its colon (`"https:"`),
      the host with any port, `pathname`, the query pairs and the fragment.
      The fragment is `None` when the address has no `#` at all and `Some("")`
      for a bare trailing `#`: the `hash` getter reads `""` for both, but the
      WebSocket constructor tells them apart. */
  datatype Url = Url(protocol: string, host: string, pathname: string, query: Query, fragment: Option<string>)

  /** What the builders produce: `Unset` stands for the empty string they return
      when no address is set, `Throws` for the exception `new URL` raises on an
      address it cannot parse, `Built` for the URL. */
  datatype Derived = Unset | Throws | Built(url: Url)

  /** URL parsing (`new URL(s)`) is a parameter: `None` when parsing throws. */
  type Parser = string -> Option<Url>

  /** What is assumed of the parser where the scheme matters: an `https://`
      address parses to protocol `https:` and an `http://` one to `http:`,
      whatever the letter case of the scheme. */
  ghost predicate ParsesHttpSchemes(parse: Parser) {
    forall s :: parse(s).Some? ==>
      (StartsWithIgnoringCase(s, "https://") ==> parse(s).value.protocol == "https:")
      && (StartsWithIgnoringCase(s, "http://") ==> parse(s).value.protocol == "http:")
  }

  const ChatPath: string := "/api/chat"
  const DefaultTextPrompt: string := "You enjoy having a good conversation."
  const DefaultVoice: string := "NATF0.pt"

  /** The eleven query settings of the chat endpoint, in the order they are set. */
  const ChatParams: seq<Param> := [
    ("text_prompt", DefaultTextPrompt),
    ("voice_prompt", DefaultVoice),
    ("text_temperature", "0.8"),
    ("text_topk", "40"),
    ("audio_temperature", "0.8"),
    ("audio_topk", "40"),
    ("pad_mult", "1"),
    ("text_seed", "42"),
    ("audio_seed", "42"),
    ("repetition_penalty_context", "16"),
    ("repetition_penalty", "1.1")
  ]

  lemma ChatParamsDistinct()
    ensures |ChatParams| == 11 && DistinctNames(ChatParams)
  {
  }

  /** The chat query built on top of a parsed query: every setting present once
      with its fixed value, and every pair of another name as it was, in the same
      order. */
  lemma ChatQuerySettings(q: Query)
    ensures forall k :: 0 <= k < |ChatParams| ==> Only(SetAll(q, ChatParams), ChatParams[k].0) == [ChatParams[k]]
    ensures Without(SetAll(q, ChatParams), Names(ChatParams)) == Without(q, Names(ChatParams))
    ensures forall n :: n !in Names(ChatParams) ==> Only(SetAll(q, ChatParams), n) == Only(q, n)
  {
    ChatParamsDistinct();
    forall k | 0 <= k < |ChatParams|
      ensures Only(SetAll(q, ChatParams), ChatParams[k].0) == [ChatParams[k]]
    {
      SetAllAssigned(q, ChatParams, k);
    }
    SetAllWithout(q, ChatParams, Names(ChatParams));
    forall n | n !in Names(ChatParams)
      ensures Only(SetAll(q, ChatParams), n) == Only(q, n)
    {
      SetAllUntouched(q, ChatParams, n);
    }
  }

  /** The chat endpoint derived from the address `serverUrl`: unset exactly when
      the address is blank, throwing exactly when the normalised address does
      not parse, otherwise the parsed address with `/api/chat` joined to its path
      and the eleven settings set in its query. */
  function ChatUrl(serverUrl: string, parse: Parser): (r: Derived)
    ensures r.Unset? <==> AllSpace(serverUrl)
    ensures r.Throws? <==> NormalizeUrl(serverUrl) != "" && parse(NormalizeUrl(serverUrl)).None?
    ensures r.Built? ==>
      var u := parse(NormalizeUrl(serverUrl)).value;
      r.url.protocol == u.protocol && r.url.host == u.host && r.url.fragment == u.fragment
      && r.url.pathname == JoinPath(u.pathname, ChatPath)
  {
    NormalizeUnsetIffBlank(serverUrl);
    var normalized := NormalizeUrl(serverUrl);
    if normalized == "" then Unset
    else match parse(normalized)
      case None => Throws
      case Some(u) =>
        Built(u.(pathname := JoinPath(u.pathname, ChatPath), query := SetAll(u.query, ChatParams)))
  }

  /** The query of a built chat endpoint holds each of the eleven settings once,
      with its fixed value, and every other pair of the parsed address's query
      unchanged and in the same order. */
  lemma ChatUrlQuery(serverUrl: string, parse: Parser)
    requires ChatUrl(serverUrl, parse).Built?
    ensures var q := ChatUrl(serverUrl, parse).url.query;
            var q0 := parse(NormalizeUrl(serverUrl)).value.query;
            (forall k :: 0 <= k < |ChatParams| ==> Only(q, ChatParams[k].0) == [ChatParams[k]])
            && Without(q, Names(ChatParams)) == Without(q0, Names(ChatParams))
  {
    ChatQuerySettings(parse(NormalizeUrl(serverUrl)).value.query);
  }

  /** Whatever the address, a built chat endpoint carries `voice_prompt=NATF0.pt`,
      `text_seed=42`, `audio_seed=42` and `repetition_penalty=1.1`, each once. */
  lemma ChatUrlFixedSettings(serverUrl: string, parse: Parser)
    requires ChatUrl(serverUrl, parse).Built?
    ensures var q := ChatUrl(serverUrl, parse).url.query;
            Only(q, "voice_prompt") == [("voice_prompt", "NATF0.pt")]
            && Only(q, "text_seed") == [("text_seed", "42")]
            && Only(q, "audio_seed") == [("audio_seed", "42")]
            && Only(q, "repetition_penalty") == [("repetition_penalty", "1.1")]
  {
    var u := parse(NormalizeUrl(serverUrl)).value;
    assert ChatUrl(serverUrl, parse).url.query == SetAll(u.query, ChatParams);
    ChatQueryFixedSettings(u.query);
  }

  lemma ChatQueryFixedSettings(q0: Query)
    ensures var q := SetAll(q0, ChatParams);
            Only(q, "voice_prompt") == [("voice_prompt", "NATF0.pt")]
            && Only(q, "text_seed") == [("text_seed", "42")]
            && Only(q, "audio_seed") == [("audio_seed", "42")]
            && Only(q, "repetition_penalty") == [("repetition_penalty", "1.1")]
  {
    ChatParamsDistinct();
    SetAllAssigned(q0, ChatParams, 1);
    SetAllAssigned(q0, ChatParams, 7);
    SetAllAssigned(q0, ChatParams, 8);
    SetAllAssigned(q0, ChatParams, 10);
  }

  /** Whatever the address, the path of a built chat endpoint ends in
      `/api/chat`. */
  lemma ChatUrlPathEnds(serverUrl: string, parse: Parser)
    requires ChatUrl(serverUrl, parse).Built?
    ensures var p := ChatUrl(serverUrl, parse).url.pathname;
            |p| >= |ChatPath| && p[|p| - |ChatPath|..] == ChatPath
  {
    JoinPathEndsWithSub(parse(NormalizeUrl(serverUrl)).value.pathname, ChatPath);
  }

  /** The scheme choice of `buildWebSocketUrl`. */
  function SocketProtocol(protocol: string): (r: string)
    ensures r == "wss:" <==> protocol == "https:"
    ensures r == "ws:" <==> protocol != "https:"
  {
    if protocol == "https:" then "wss:" else "ws:"
  }

  /** The WebSocket endpoint: the chat endpoint under the socket scheme, with
      host, path, query and fragment unchanged; unset (or throwing) exactly when
      the chat endpoint is. */
  function SocketUrl(serverUrl: string, parse: Parser): (r: Derived)
    ensures r.Unset? <==> AllSpace(serverUrl)
    ensures r.Throws? <==> ChatUrl(serverUrl, parse).Throws?
    ensures r.Built? ==>
      var c := ChatUrl(serverUrl, parse).url;
      r.url == c.(protocol := SocketProtocol(c.protocol))
  {
    match ChatUrl(serverUrl, parse)
    case Unset => Unset
    case Throws => Throws
    case Built(c) => Built(c.(protocol := SocketProtocol(c.protocol)))
  }

  /** The socket endpoint with its fragment cleared before it is serialised
      (`wsUrl.hash = ""`), the form the WebSocket constructor accepts: built for
      the same addresses as `SocketUrl`, never carrying a fragment, and
      otherwise the same URL. */
  function FragmentFreeSocketUrl(serverUrl: string, parse: Parser): (r: Derived)
    ensures r.Unset? <==> AllSpace(serverUrl)
    ensures r.Built? <==> SocketUrl(serverUrl, parse).Built?
    ensures r.Built? ==> r.url.fragment.None?
    ensures r.Built? ==> r.url.(fragment := SocketUrl(serverUrl, parse).url.fragment) == SocketUrl(serverUrl, parse).url
  {
    match SocketUrl(serverUrl, parse)
    case Built(u) => Built(u.(fragment := None))
    case other => other
  }

  /** A normalised address parses to `http:` when it starts `http://` and to
      `https:` otherwise. */
  lemma ParsedProtocol(parse: Parser, n: string)
    requires ParsesHttpSchemes(parse) && parse(n).Some? && HasHttpScheme(n)
    ensures parse(n).value.protocol == (if StartsWithIgnoringCase(n, "http://") then "http:" else "https:")
  {
    if StartsWithIgnoringCase(n, "http://") {
      assert !StartsWithIgnoringCase(n, "https://") by {
        assert LowerAscii(n[4]) == ':';
      }
    }
  }

  /** With a parser that reads the scheme, an `http://` address gives a `ws:`
      socket and every other usable address (which normalisation puts under
      `https://`) a `wss:` socket. */
  lemma SocketSchemeFollowsAddress(serverUrl: string, parse: Parser)
    requires ParsesHttpSchemes(parse)
    requires SocketUrl(serverUrl, parse).Built?
    ensures var n := NormalizeUrl(serverUrl);
            SocketUrl(serverUrl, parse).url.protocol
              == (if StartsWithIgnoringCase(n, "http://") then "ws:" else "wss:")
  {
    var n := NormalizeUrl(serverUrl);
    var c := ChatUrl(serverUrl, parse);
    assert c.Built? && n != "" && parse(n).Some?;
    assert c.url.protocol == parse(n).value.protocol;
    ParsedProtocol(parse, n);
  }

  /** `example.com` is reached over `https://`, so its socket is `wss:`. */
  lemma ExampleBareHostSocket(parse: Parser)
    requires ParsesHttpSchemes(parse) && SocketUrl("example.com", parse).Built?
    ensures SocketUrl("example.com", parse).url.protocol == "wss:"
  {
    NormalizeBareHost();
    NormalizeHttpsHost();
    SocketSchemeFollowsAddress("example.com", parse);
  }

  /** `https://example.com` gives a `wss:` socket. */
  lemma ExampleHttpsSocket(parse: Parser)
    requires ParsesHttpSchemes(parse) && SocketUrl("https://example.com", parse).Built?
    ensures SocketUrl("https://example.com", parse).url.protocol == "wss:"
  {
    NormalizeHttpsHost();
    SocketSchemeFollowsAddress("https://example.com", parse);
  }

  /** `http://example.com` gives a `ws:` socket. */
  lemma ExampleHttpSocket(parse: Parser)
    requires ParsesHttpSchemes(parse) && SocketUrl("http://example.com", parse).Built?
    ensures SocketUrl("http://example.com", parse).url.protocol == "ws:"
  {
    NormalizeHttpHost();
    SocketSchemeFollowsAddress("http://example.com", parse);
  }

  /** The `URL` object `buildChatUrl` and `buildWebSocketUrl` create and then
      update field by field. */
  class UrlObject {
    var protocol: string
    var host: string
    var pathname: string
    var query: Query
    var fragment: Option<string>

    function Value(): Url
      reads this
    {
      Url(protocol, host, pathname, query, fragment)
    }

    /** `new URL(...)` on an address that parses to `u`. */
    constructor (u: Url)
      ensures Value() == u
    {
      protocol, host, pathname, query, fragment := u.protocol, u.host, u.pathname, u.query, u.fragment;
    }

    /** `url.pathname = p`. */
    method SetPathname(p: string)
      modifies this
      ensures Value() == old(Value()).(pathname := p)
    {
      pathname := p;
    }

    /** `url.protocol = p`, for a protocol of the same kind (a special scheme
      replaced by a special scheme). */
    method SetProtocol(p: string)
      modifies this
      ensures Value() == old(Value()).(protocol := p)
    {
      protocol := p;
    }

    /** `url.hash = ""`: an empty assignment removes the fragment altogether. */
    method ClearHash()
      modifies this
      ensures Value() == old(Value()).(fragment := None)
    {
      fragment := None;
    }

    /** `url.searchParams.set(name, value)`. */
    method SetSearchParam(name: string, value: string)
      modifies this
      ensures Value() == old(Value()).(query := SetParam(old(query), name, value))
    {
      query := SetParam(query, name, value);
    }
  }

  /** `buildChatUrl`: normalise, parse, set the path, then set the eleven query
      settings one after another. */
  method BuildChatUrl(serverUrl: string, parse: Parser) returns (r: Derived)
    ensures r == ChatUrl(serverUrl, parse)
  {
    var normalized := NormalizeUrl(serverUrl);
    if normalized == "" {
      return Unset;
    }
    var parsed := parse(normalized);
    if parsed.None? {
      return Throws;
    }
    var url := new UrlObject(parsed.value);
    url.SetPathname(JoinPath(url.pathname, ChatPath));
    SetChatParams(url);
    r := Built(url.Value());
  }

  lemma SetAllStep(q: Query, k: nat)
    requires k < |ChatParams|
    ensures SetAll(q, ChatParams[..k + 1]) == SetParam(SetAll(q, ChatParams[..k]), ChatParams[k].0, ChatParams[k].1)
  {
    assert ChatParams[..k + 1][..k] == ChatParams[..k];
  }

  /** The eleven `searchParams.set` calls of `buildChatUrl`, in source order. */
  method SetChatParams(url: UrlObject)
    modifies url
    ensures url.Value() == old(url.Value()).(query := SetAll(old(url.query), ChatParams))
  {
    ghost var q0 := url.query;
    url.SetSearchParam("text_prompt", DefaultTextPrompt);
    SetAllStep(q0, 0);
    url.SetSearchParam("voice_prompt", DefaultVoice);
    SetAllStep(q0, 1);
    url.SetSearchParam("text_temperature", "0.8");
    SetAllStep(q0, 2);
    url.SetSearchParam("text_topk", "40");
    SetAllStep(q0, 3);
    url.SetSearchParam("audio_temperature", "0.8");
    SetAllStep(q0, 4);
    url.SetSearchParam("audio_topk", "40");
    SetAllStep(q0, 5);
    url.SetSearchParam("pad_mult", "1");
    SetAllStep(q0, 6);
    url.SetSearchParam("text_seed", "42");
    SetAllStep(q0, 7);
    url.SetSearchParam("audio_seed", "42");
    SetAllStep(q0, 8);
    url.SetSearchParam("repetition_penalty_context", "16");
    SetAllStep(q0, 9);
    url.SetSearchParam("repetition_penalty", "1.1");
    SetAllStep(q0, 10);
    assert ChatParams[..11] == ChatParams;
  }

  /** `buildWebSocketUrl`: build the chat endpoint, copy it, and switch the copy
      to the socket scheme. */
  method BuildWebSocketUrl(serverUrl: string, parse: Parser) returns (r: Derived)
    ensures r == SocketUrl(serverUrl, parse)
    ensures r.Unset? <==> AllSpace(serverUrl)
    ensures r.Built? ==> (r.url.protocol == "wss:" || r.url.protocol == "ws:")
  {
    var chat := BuildChatUrl(serverUrl, parse);
    if !chat.Built? {
      return chat;
    }
    var ws := new UrlObject(chat.url);
    ws.SetProtocol(if ws.protocol == "https:" then "wss:" else "ws:");
    r := Built(ws.Value());
  }

  /** `buildWebSocketUrl` with the fragment cleared before serialising. */
  method BuildFragmentFreeSocketUrl(serverUrl: string, parse: Parser) returns (r: Derived)
    ensures r == FragmentFreeSocketUrl(serverUrl, parse)
    ensures r.Built? ==> r.url.fragment.None?
  {
    r := BuildWebSocketUrl(serverUrl, parse);
    if !r.Built? {
      return;
    }
    var ws := new UrlObject(r.url);
    ws.ClearHash();
    r := Built(ws.Value());
  }
}
