/**
 * The HTTP/1.x parser adapter: the object the tokenizer calls back while it
 * reads a message, which rebuilds header pairs from fragments, builds the
 * IncomingMessage at the end of the header block and feeds it the body.
 *
 * The tokenizer itself is not part of this model. What it reports is an
 * input: the number of bytes it consumed, its upgrade bit, and at the end of
 * the headers the values it parsed (TokenizerState). The application's
 * `onIncoming` callback is an input too: its reply to the one call made.
 */
module HttpParser {
  import opened Strings
  import opened HeaderPairs
  import HttpMethod
  import HttpVersion
  import Incoming

  /** The tokenizer's mode, fixed when the parser is made. */
  datatype MessageKind = Request | Response

  /** The parser's flag bits HAVE_FLUSHED, UPGRADE and SHOULD_KEEP_ALIVE; `flags` holds those that are on. */
  datatype Flag = HaveFlushed | Upgrade | ShouldKeepAlive

  /** What the tokenizer has parsed when it reports the end of the header block. */
  datatype TokenizerState = TokenizerState(
    methodCode: nat, statusCode: nat, httpMajor: nat, httpMinor: nat,
    upgrade: bool, shouldKeepAlive: bool)

  /**
   * The result of `execute` on a buffer of `len` bytes of which the
   * tokenizer consumed `numParsed`: -1 marks invalid input, which is a short
   * count without an upgrade; otherwise the count itself, so that after an
   * upgrade the caller knows where the new protocol's bytes begin.
   */
  function Execute(len: nat, numParsed: nat, upgrade: bool): (r: int)
    ensures r == -1 <==> !upgrade && numParsed != len
    ensures r != -1 ==> r == numParsed
    ensures upgrade ==> r == numParsed
  {
    if !upgrade && numParsed != len then -1 else numParsed
  }

  /** The result of `finish`: EOF is accepted exactly when the tokenizer consumed nothing on it. */
  function Finish(numParsed: nat): (accepted: bool)
    ensures accepted <==> numParsed == 0
  {
    numParsed == 0
  }

  /**
   * The flags after the tokenizer reports the end of a header block, as the
   * code is written: UPGRADE and SHOULD_KEEP_ALIVE are only ever turned on,
   * so both carry over from earlier messages on the connection.
   */
  function HeaderFlagsAsWritten(flags: set<Flag>, t: TokenizerState): (r: set<Flag>)
    ensures ShouldKeepAlive in r <==> ShouldKeepAlive in flags || t.shouldKeepAlive
    ensures Upgrade in r <==> Upgrade in flags || t.upgrade
    ensures HaveFlushed in r <==> HaveFlushed in flags
  {
    flags + (if t.upgrade then {Upgrade} else {}) + (if t.shouldKeepAlive then {ShouldKeepAlive} else {})
  }

  /**
   * The flags as evidently intended: SHOULD_KEEP_ALIVE says whether this
   * message keeps the connection alive; UPGRADE, once on, stays on.
   */
  function HeaderFlags(flags: set<Flag>, t: TokenizerState): (r: set<Flag>)
    ensures ShouldKeepAlive in r <==> t.shouldKeepAlive
    ensures Upgrade in r <==> Upgrade in flags || t.upgrade
    ensures HaveFlushed in r <==> HaveFlushed in flags
  {
    (flags - {ShouldKeepAlive}) + (if t.upgrade then {Upgrade} else {})
      + (if t.shouldKeepAlive then {ShouldKeepAlive} else {})
  }

  /**
   * As written, once one message on a connection is keep-alive, every later
   * message is reported keep-alive too, whatever the tokenizer says of it.
   */
  lemma KeepAliveSticks(flags: set<Flag>, t: TokenizerState)
    requires ShouldKeepAlive in flags && !t.shouldKeepAlive
    ensures ShouldKeepAlive in HeaderFlagsAsWritten(flags, t)
    ensures ShouldKeepAlive !in HeaderFlags(flags, t)
  {
  }

  class Parser {
    const kind: MessageKind
    var flags: set<Flag>
    var url: Option<Str>
    var requestMethod: Option<Str>
    var majorVer: nat
    var minorVer: nat
    var statusCode: int
    var maxHeaderPairs: nat
    var fields: seq<Option<Str>>
    var values: seq<Option<Str>>
    var incoming: Incoming.IncomingMessage?
    /** The calls made to `onIncoming`: the message handed over and the keep-alive argument. */
    var incomingCalls: seq<(Incoming.IncomingMessage, bool)>

    function Pairs(): Slots
      reads this
    {
      Slots(fields, values)
    }

    /** The header accumulator invariant, which holds between callbacks. */
    predicate Valid()
      reads this
    {
      Balanced(Pairs())
    }

    constructor (kind: MessageKind)
      ensures this.kind == kind && flags == {} && url == None && requestMethod == None
      ensures maxHeaderPairs == 0 && fields == [] && values == [] && Valid()
      ensures incoming == null && incomingCalls == []
    {
      this.kind := kind;
      flags, url, requestMethod := {}, None, None;
      majorVer, minorVer, statusCode := 0, 0, 0;
      maxHeaderPairs, fields, values := 0, [], [];
      incoming, incomingCalls := null, [];
    }

    method SetFlag(f: Flag)
      modifies this`flags
      ensures flags == old(flags) + {f}
    {
      flags := flags + {f};
    }

    method UnsetFlag(f: Flag)
      modifies this`flags
      ensures flags == old(flags) - {f}
    {
      flags := flags - {f};
    }

    predicate HasFlag(f: Flag)
      reads this
    {
      f in flags
    }

    /** A new message begins: the url and the header accumulator are reset, nothing else. */
    method OnMessageBegin()
      modifies this`url, this`fields, this`values
      ensures url == None && fields == [] && values == [] && Valid()
      ensures flags == old(flags) && requestMethod == old(requestMethod) && statusCode == old(statusCode)
      ensures majorVer == old(majorVer) && minorVer == old(minorVer)
    {
      url := None;
      fields := [];
      values := [];
    }

    /** A fragment of the request target. */
    method OnUrl(frag: Str)
      modifies this`url
      ensures url.Some? && Text(url) == Text(old(url)) + frag
    {
      url := Some(Update(url, frag));
    }

    /** A fragment of a header name. */
    method OnHeaderField(frag: Str)
      requires Valid()
      modifies this`fields
      ensures Pairs() == AddField(old(Pairs()), frag)
      ensures Valid() && |fields| == |values| + 1
    {
      var numFields, numValues := |fields|, |values|;
      if numFields == numValues {
        fields := fields + [None];
      }
      assert |fields| == numValues + 1;
      fields := fields[numValues := Some(Update(fields[numValues], frag))];
    }

    /** A fragment of a header value; the tokenizer sends one only after a header name. */
    method OnHeaderValue(frag: Str)
      requires Valid() && |fields| >= 1
      modifies this`values
      ensures Pairs() == AddValue(old(Pairs()), frag)
      ensures Valid() && |values| == |fields|
    {
      var numFields, numValues := |fields|, |values|;
      if numValues != numFields {
        values := values + [None];
      }
      assert |values| == numFields;
      values := values[numFields - 1 := Some(Update(values[numFields - 1], frag))];
    }

    /** Copy the first `n` header lines onto `msg`, in index order. */
    method CopyHeaderLines(msg: Incoming.IncomingMessage, n: nat)
      requires Valid() && |fields| == |values| && n <= |fields|
      modifies msg`headerLines
      ensures msg.headerLines == old(msg.headerLines) + Lines(Pairs())[..n]
    {
      var i := 0;
      while i < n
        invariant 0 <= i <= n
        invariant msg.headerLines == old(msg.headerLines) + Lines(Pairs())[..i]
      {
        msg.headerLines := msg.headerLines + [(fields[i].value, values[i].value)];
        i := i + 1;
      }
    }

    /**
     * The static `onHeadersComplete`: record what the tokenizer parsed, then
     * hand over to the member version; 1 tells the tokenizer to skip the body.
     */
    method OnHeadersComplete(t: TokenizerState, reply: Option<bool>) returns (r: int)
      requires Valid() && |fields| == |values|
      modifies this`flags, this`requestMethod, this`statusCode, this`majorVer, this`minorVer
      modifies this`url, this`fields, this`values, this`incoming, this`incomingCalls
      ensures requestMethod == (if kind == Request then Some(HttpMethod.Name(t.methodCode)) else old(requestMethod))
      ensures statusCode == (if kind == Response then t.statusCode else old(statusCode))
      ensures majorVer == t.httpMajor && minorVer == t.httpMinor
      ensures flags == HeaderFlags(old(flags), t)
      ensures incoming != null && fresh(incoming)
      ensures incoming.url == old(url)
      ensures incoming.httpVersion == HttpVersion.VersionString(t.httpMajor, t.httpMinor)
      ensures incoming.headerLines == old(Lines(Pairs()))[..HeaderLimit(old(|fields|), maxHeaderPairs)]
      ensures incoming.requestMethod == requestMethod
      ensures incoming.statusCode == (if requestMethod.None? then Some(statusCode) else None)
      ensures incoming.flags == {Incoming.Readable} + (if Upgrade in flags then {Incoming.Upgrade} else {})
      ensures incoming.pendings == [] && incoming.emitted == []
      ensures url == None && fields == [] && values == [] && Valid()
      ensures incomingCalls == old(incomingCalls) + (if Upgrade in flags then [] else [(incoming, t.shouldKeepAlive)])
      ensures r == (if Upgrade !in flags && reply == Some(true) then 1 else 0)
    {
      if kind == Request {
        requestMethod := Some(HttpMethod.Name(t.methodCode));
      } else {
        statusCode := t.statusCode;
      }
      majorVer := t.httpMajor;
      minorVer := t.httpMinor;
      if t.upgrade {
        SetFlag(Upgrade);
      }
      if t.shouldKeepAlive {
        SetFlag(ShouldKeepAlive);
      } else {
        UnsetFlag(ShouldKeepAlive);
      }
      var skipBody := HeadersDisposition(reply);
      r := if skipBody then 1 else 0;
    }

    /**
     * The first half of the member `onHeadersComplete`: a new IncomingMessage
     * with the url, the version string and the header lines, capped by
     * `maxHeaderPairs`, in index order.
     */
    method BuildIncoming() returns (msg: Incoming.IncomingMessage)
      requires Valid() && |fields| == |values|
      ensures fresh(msg)
      ensures msg.url == url
      ensures msg.httpVersion == HttpVersion.VersionString(majorVer, minorVer)
      ensures msg.headerLines == Lines(Pairs())[..HeaderLimit(|fields|, maxHeaderPairs)]
      ensures msg.requestMethod == None && msg.statusCode == None
      ensures msg.flags == {Incoming.Readable} && msg.pendings == [] && msg.emitted == []
    {
      msg := new Incoming.IncomingMessage();
      msg.url := url;
      msg.httpVersion := HttpVersion.VersionString(majorVer, minorVer);

      var n := |fields|;
      n := HeaderLimit(n, maxHeaderPairs);
      CopyHeaderLines(msg, n);
    }

    /** The method, or else the status code, and the upgrade mark, set on the new message. */
    method MarkIncoming(msg: Incoming.IncomingMessage)
      modifies msg`requestMethod, msg`statusCode, msg`flags
      ensures msg.requestMethod == (if requestMethod.Some? then requestMethod else old(msg.requestMethod))
      ensures msg.statusCode == (if requestMethod.None? then Some(statusCode) else old(msg.statusCode))
      ensures msg.flags == old(msg.flags) + (if Upgrade in flags then {Incoming.Upgrade} else {})
    {
      if requestMethod.Some? {
        msg.requestMethod := requestMethod;
      } else {
        msg.statusCode := Some(statusCode);
      }

      if HasFlag(Upgrade) {
        msg.flags := msg.flags + {Incoming.Upgrade};
      }
    }

    /**
     * The member `onHeadersComplete`: build the IncomingMessage, reset the
     * accumulators, and hand the message to `onIncoming` unless the
     * connection is being upgraded. `reply` is what `onIncoming` returns;
     * `None` stands for a value that is not a boolean, which leaves the body
     * unskipped.
     */
    method HeadersDisposition(reply: Option<bool>) returns (skipBody: bool)
      requires Valid() && |fields| == |values|
      modifies this`url, this`fields, this`values, this`incoming, this`incomingCalls
      ensures incoming != null && fresh(incoming)
      ensures incoming.url == old(url)
      ensures incoming.httpVersion == HttpVersion.VersionString(majorVer, minorVer)
      ensures incoming.headerLines == old(Lines(Pairs()))[..HeaderLimit(old(|fields|), maxHeaderPairs)]
      ensures incoming.requestMethod == requestMethod
      ensures incoming.statusCode == (if requestMethod.None? then Some(statusCode) else None)
      ensures incoming.flags == {Incoming.Readable} + (if Upgrade in flags then {Incoming.Upgrade} else {})
      ensures incoming.pendings == [] && incoming.emitted == []
      ensures url == None && fields == [] && values == [] && Valid()
      ensures incomingCalls == old(incomingCalls) + (if Upgrade in flags then [] else [(incoming, ShouldKeepAlive in flags)])
      ensures skipBody <==> Upgrade !in flags && reply == Some(true)
    {
      var msg := BuildIncoming();
      incoming := msg;

      url := None;
      fields := [];
      values := [];

      MarkIncoming(msg);

      skipBody := false;
      if !HasFlag(Upgrade) {
        incomingCalls := incomingCalls + [(msg, HasFlag(ShouldKeepAlive))];
        if reply.Some? {
          skipBody := reply.value;
        }
      }
    }

    /** A body chunk, routed by the backpressure coupler. */
    method OnBody(chunk: Bytes)
      requires incoming != null
      modifies incoming`pendings, incoming`emitted
      ensures incoming.Snapshot() == Incoming.Body(old(incoming.Snapshot()), chunk)
    {
      var pendings := incoming.pendings;
      if Incoming.Paused in incoming.flags || |pendings| > 0 {
        incoming.pendings := pendings + [Some(chunk)];
      } else {
        incoming.emitted := incoming.emitted + [Incoming.Data(chunk)];
      }
    }

    /**
     * The end of the message: mark it complete, add the trailer fields as
     * header lines, then route the end of stream unless upgraded.
     */
    method OnMessageComplete()
      requires incoming != null && Valid() && |fields| == |values|
      modifies this`url, this`fields, this`values
      modifies incoming`flags, incoming`headerLines, incoming`pendings, incoming`emitted
      ensures incoming.headerLines == old(incoming.headerLines) + old(Lines(Pairs()))
      ensures incoming.Snapshot() ==
                Incoming.Eof(old(incoming.Snapshot()).(flags := old(incoming.flags) + {Incoming.Complete}))
      ensures fields == [] && values == [] && Valid()
      ensures url == (if old(fields) == [] then old(url) else None)
    {
      incoming.flags := incoming.flags + {Incoming.Complete};

      if fields != [] {
        var n := |fields|;
        CopyHeaderLines(incoming, n);
        url := None;
        fields := [];
        values := [];
      }

      if Incoming.Upgrade !in incoming.flags {
        var pendings := incoming.pendings;
        if Incoming.Paused in incoming.flags || |pendings| > 0 {
          incoming.pendings := pendings + [None];
        } else {
          incoming.flags := incoming.flags - {Incoming.Readable};
          incoming.emitted := incoming.emitted + [Incoming.End];
        }
      }
    }
  }
}
