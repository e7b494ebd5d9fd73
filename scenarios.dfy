/**
 * Short runs of the parser's callbacks for typical messages, checked
 * against the callbacks' specifications alone.
 */
module Scenarios {
  import opened Strings
  import opened HttpParser
  import Incoming
  import HttpMethod
  import HeaderPairs

  /** A GET request whose `Host` header is split across buffers: the fragments join into one pair. */
  method SplitHeader()
  {
    var p := new Parser(Request);
    p.OnMessageBegin();
    p.OnUrl("/");
    assert Text(p.url) == [] + "/" == "/";
    assert p.url == Some("/");
    p.OnHeaderField("Ho");
    assert p.fields == [Some("Ho")] && p.values == [];
    p.OnHeaderField("st");
    assert "Ho" + "st" == "Host";
    assert p.fields == [Some("Host")];
    p.OnHeaderValue("exa");
    assert p.values == [Some("exa")];
    p.OnHeaderValue("mple.com");
    JoinExample();
    assert p.fields == [Some("Host")] && p.values == [Some("example.com")];
  }

  lemma JoinExample()
    ensures "exa" + "mple.com" == "example.com"
  {
    var joined := "exa" + "mple.com";
    assert joined[..3] == "exa" && joined[3..] == "mple.com";
  }

  /**
   * The end of that request's header block: one header line, handed to
   * `onIncoming` with keep-alive. The line is there because the parser copies
   * header lines under the corrected cap (HeaderPairs.HeaderLimit); the guard
   * as written would copy none under the default cap of zero.
   */
  method HeaderHandOff(p: Parser)
    requires p.kind == Request && p.url == Some("/") && p.flags == {}
    requires p.fields == [Some("Host")] && p.values == [Some("example.com")]
    modifies p
  {
    var r := p.OnHeadersComplete(TokenizerState(HttpMethod.GET, 0, 1, 1, false, true), Some(false));
    assert r == 0;
    var msg := p.incoming;
    assert msg.headerLines == HeaderPairs.Lines(HeaderPairs.Slots([Some("Host")], [Some("example.com")]));
    assert msg.headerLines == [("Host", "example.com")];
    assert msg.requestMethod == Some("GET") && msg.url == Some("/");
    assert p.incomingCalls == old(p.incomingCalls) + [(msg, true)];
  }

  /** A consumer that pauses before the body: the chunk and then the EOF sentinel are queued. */
  method PausedConsumer()
  {
    var p := new Parser(Request);
    p.OnMessageBegin();
    p.OnUrl("/u");
    var r := p.OnHeadersComplete(TokenizerState(HttpMethod.POST, 0, 1, 1, false, true), None);
    assert r == 0;
    var msg := p.incoming;
    msg.flags := msg.flags + {Incoming.Paused};
    p.OnBody([104, 105, 33]);
    p.OnMessageComplete();
    assert msg.pendings == [Some([104, 105, 33]), None];
    assert msg.emitted == [];
  }

  /** An upgrade request: `onIncoming` is not called and the message gets no end of stream. */
  method UpgradeHandshake()
  {
    var p := new Parser(Request);
    p.OnMessageBegin();
    p.OnUrl("/chat");
    var r := p.OnHeadersComplete(TokenizerState(HttpMethod.GET, 0, 1, 1, true, true), Some(true));
    assert r == 0;
    assert p.incomingCalls == [];
    var msg := p.incoming;
    p.OnMessageComplete();
    assert msg.emitted == [] && msg.pendings == [];
    assert Execute(75, 64, true) == 64;
  }

  /** Two requests on one connection, the first keep-alive and the second not: `onIncoming` learns each one's own answer. */
  method KeepAliveThenClose()
  {
    var p := new Parser(Request);
    p.OnMessageBegin();
    p.OnUrl("/a");
    var r := p.OnHeadersComplete(TokenizerState(HttpMethod.GET, 0, 1, 1, false, true), Some(false));
    var first := p.incoming;
    p.OnMessageComplete();
    p.OnMessageBegin();
    p.OnUrl("/b");
    r := p.OnHeadersComplete(TokenizerState(HttpMethod.GET, 0, 1, 1, false, false), Some(false));
    var second := p.incoming;
    assert p.incomingCalls == [(first, true), (second, false)];
  }
}
