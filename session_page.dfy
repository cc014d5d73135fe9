// A page of a browser session (src/session/page.rs): every operation is
// refused with PageNotFound once the page is inactive, and otherwise is
// handed to the page's DevTools client. The page is modelled by the calls
// it issues on that client (the `calls` log); the client's answers are
// parameters. The waits after a navigation are timing only and are left out.

module SessionPage {
  import opened Wrappers
  import opened Errors
  import opened Json
  import CdpClient
  import opened SessionTypes

  /** convert_screenshot_format: the same format, with quality 100 for the lossy ones. */
  function ConvertScreenshotFormat(f: ScreenshotFormat): (c: CdpClient.ScreenshotFormat)
    ensures FormatOrigin(c) == f
    ensures !c.Png? ==> c.quality == 100
  {
    match f
    case Png => CdpClient.Png
    case Jpeg => CdpClient.Jpeg(100)
    case WebP => CdpClient.WebP(100)
  }

  /** Which requested format a client format stands for, whatever its quality. */
  function FormatOrigin(c: CdpClient.ScreenshotFormat): ScreenshotFormat
  {
    match c
    case Png => Png
    case Jpeg(_) => Jpeg
    case WebP(_) => WebP
  }

  /** evaluate's translation of the client's result: each variant to the same-named one, payload unchanged. */
  function FromClient(e: CdpClient.EvaluationResult): (s: EvaluationResult)
    ensures ToClient(s) == e
  {
    match e
    case String(x) => String(x)
    case Number(n) => Number(n)
    case Bool(b) => Bool(b)
    case Null => Null
    case Object(v) => Object(v)
  }

  /** The client result a session result stands for. */
  function ToClient(s: EvaluationResult): CdpClient.EvaluationResult
  {
    match s
    case String(x) => CdpClient.String(x)
    case Number(n) => CdpClient.Number(n)
    case Bool(b) => CdpClient.Bool(b)
    case Null => CdpClient.Null
    case Object(v) => CdpClient.Object(v)
  }

  /** The translation loses nothing in either direction. */
  lemma EvaluationRoundTrip(s: EvaluationResult, e: CdpClient.EvaluationResult)
    ensures FromClient(ToClient(s)) == s
    ensures FromClient(e).String? <==> e.String?
    ensures FromClient(e).Object? <==> e.Object?
  {
    assert ToClient(FromClient(ToClient(s))) == ToClient(s);
  }

  /** The command close sends. */
  const PageCloseCall: ClientCall := MethodCall("Page.close", JObject(map[]))

  /** go_back and go_forward navigate to a history script. */
  function HistoryCall(forward: bool): (c: ClientCall)
    ensures c.MethodCall? && c.methodName == "Page.navigate" && c != PageCloseCall
    ensures c.params == JObject(map["url" := JString(if forward then "javascript:history.forward()" else "javascript:history.back()")])
  {
    MethodCall("Page.navigate", JObject(map["url" := JString(if forward then "javascript:history.forward()" else "javascript:history.back()")]))
  }

  /** set_viewport's device-metrics override: the size, the scale and the page's mobile flag. */
  function ViewportCall(width: nat, height: nat, scale: real, mobile: bool): (c: ClientCall)
    ensures c.MethodCall? && c.methodName == "Emulation.setDeviceMetricsOverride" && c != PageCloseCall
    ensures c.params.JObject? && c.params.fields.Keys == {"width", "height", "deviceScaleFactor", "mobile"}
    ensures c.params.fields["width"] == JNumber(width as real) && c.params.fields["height"] == JNumber(height as real)
    ensures c.params.fields["mobile"] == JBool(mobile)
  {
    MethodCall("Emulation.setDeviceMetricsOverride", JObject(map[
      "width" := JNumber(width as real),
      "height" := JNumber(height as real),
      "deviceScaleFactor" := JNumber(scale),
      "mobile" := JBool(mobile)]))
  }

  /** No call of the log is Page.close. */
  ghost predicate NoClose(log: seq<ClientCall>)
    decreases |log|
  {
    log == [] || (log[|log| - 1] != PageCloseCall && NoClose(log[..|log| - 1]))
  }

  /** A log without Page.close in it satisfies NoClose. */
  lemma {:induction false} NoCloseOfAbsent(log: seq<ClientCall>)
    requires PageCloseCall !in log
    ensures NoClose(log)
  {
    if log != [] {
      assert log[..|log| - 1] <= log;
      NoCloseOfAbsent(log[..|log| - 1]);
    }
  }

  /** A log satisfying NoClose holds no Page.close. */
  lemma {:induction false} NoCloseCounts(log: seq<ClientCall>)
    requires NoClose(log)
    ensures multiset(log)[PageCloseCall] == 0
  {
    if log != [] {
      NoCloseCounts(log[..|log| - 1]);
      assert log == log[..|log| - 1] + [log[|log| - 1]];
    }
  }

  /** A valid page has sent Page.close once if it is inactive and never if it is active, and an inactive page sent it last. */
  lemma CloseSentOnce(page: PageContext)
    requires page.Valid()
    ensures multiset(page.calls)[PageCloseCall] == (if page.active then 0 else 1)
    ensures !page.active ==> page.calls[|page.calls| - 1] == PageCloseCall
  {
    if page.active {
      NoCloseCounts(page.calls);
    } else {
      var before := page.calls[..|page.calls| - 1];
      NoCloseCounts(before);
      assert page.calls == before + [PageCloseCall];
    }
  }

  class PageContext {
    const id: string
    const browserId: string
    const options: PageOptions
    var active: bool
    /** Every operation issued on the page's client, in order. */
    var calls: seq<ClientCall>

    /** Page.close is sent exactly when the page goes inactive, and is the last thing ever sent. */
    ghost predicate Valid()
      reads this
    {
      if active then NoClose(calls)
      else |calls| > 0 && calls[|calls| - 1] == PageCloseCall && NoClose(calls[..|calls| - 1])
    }

    /** new: an active page; its client has received only the setup calls made when the page was opened. */
    constructor(id: string, browserId: string, options: PageOptions, setup: seq<ClientCall>)
      requires PageCloseCall !in setup
      ensures Valid()
      ensures this.id == id && this.browserId == browserId && this.options == options
      ensures active && calls == setup
    {
      NoCloseOfAbsent(setup);
      this.id := id;
      this.browserId := browserId;
      this.options := options;
      active := true;
      calls := setup;
    }

    /** navigate: the client navigates; success is reported as status 200, loaded, at the URL the client reached. */
    method Navigate(url: string, opts: NavigationOptions, reply: Result<CdpClient.NavigationResult, Error>)
      returns (r: Result<NavigationResult, Error>)
      requires Valid()
      modifies this
      ensures Valid() && active == old(active)
      ensures !active ==> r == Err(PageNotFound(id)) && calls == old(calls)
      ensures active ==> calls == old(calls) + [NavigateCall(url)]
      ensures active && reply.Ok? ==> r == Ok(NavigationResult(reply.value.url, 200, true))
      ensures active && reply.Err? ==> r == Err(reply.error)
    {
      if !active {
        return Err(PageNotFound(id));
      }
      calls := calls + [NavigateCall(url)];
      if reply.Err? {
        return Err(reply.error);
      }
      r := Ok(NavigationResult(reply.value.url, 200, true));
    }

    /** get_content: the client's answer. */
    method GetContent(reply: Result<string, Error>) returns (r: Result<string, Error>)
      requires Valid()
      modifies this
      ensures Valid() && active == old(active)
      ensures !active ==> r == Err(PageNotFound(id)) && calls == old(calls)
      ensures active ==> calls == old(calls) + [GetContentCall] && r == reply
    {
      if !active {
        return Err(PageNotFound(id));
      }
      calls := calls + [GetContentCall];
      r := reply;
    }

    /** set_content: the client's answer. */
    method SetContent(html: string, reply: Result<(), Error>) returns (r: Result<(), Error>)
      requires Valid()
      modifies this
      ensures Valid() && active == old(active)
      ensures !active ==> r == Err(PageNotFound(id)) && calls == old(calls)
      ensures active ==> calls == old(calls) + [SetContentCall(html)] && r == reply
    {
      if !active {
        return Err(PageNotFound(id));
      }
      calls := calls + [SetContentCall(html)];
      r := reply;
    }

    /** reload: the client's answer. */
    method Reload(ignoreCache: bool, reply: Result<(), Error>) returns (r: Result<(), Error>)
      requires Valid()
      modifies this
      ensures Valid() && active == old(active)
      ensures !active ==> r == Err(PageNotFound(id)) && calls == old(calls)
      ensures active ==> calls == old(calls) + [ReloadCall(ignoreCache)] && r == reply
    {
      if !active {
        return Err(PageNotFound(id));
      }
      calls := calls + [ReloadCall(ignoreCache)];
      r := reply;
    }

    /** go_back (forward false) and go_forward (forward true): a history navigation whose reply is dropped unless it is an error. */
    method GoHistory(forward: bool, reply: Result<Json, Error>) returns (r: Result<(), Error>)
      requires Valid()
      modifies this
      ensures Valid() && active == old(active)
      ensures !active ==> r == Err(PageNotFound(id)) && calls == old(calls)
      ensures active ==> calls == old(calls) + [HistoryCall(forward)]
      ensures active ==> (r.Ok? <==> reply.Ok?) && (reply.Err? ==> r == Err(reply.error))
    {
      if !active {
        return Err(PageNotFound(id));
      }
      calls := calls + [HistoryCall(forward)];
      if reply.Err? {
        return Err(reply.error);
      }
      r := Ok(());
    }

    /** evaluate: the client's result, translated variant for variant. */
    method Evaluate(script: string, awaitPromise: bool, reply: Result<CdpClient.EvaluationResult, Error>)
      returns (r: Result<EvaluationResult, Error>)
      requires Valid()
      modifies this
      ensures Valid() && active == old(active)
      ensures !active ==> r == Err(PageNotFound(id)) && calls == old(calls)
      ensures active ==> calls == old(calls) + [EvaluateCall(script, awaitPromise)]
      ensures active && reply.Ok? ==> r.Ok? && ToClient(r.value) == reply.value
      ensures active && reply.Err? ==> r == Err(reply.error)
    {
      if !active {
        return Err(PageNotFound(id));
      }
      calls := calls + [EvaluateCall(script, awaitPromise)];
      if reply.Err? {
        return Err(reply.error);
      }
      r := Ok(FromClient(reply.value));
    }

    /** screenshot: only the format reaches the client (quality 100 for JPEG and WebP); the requested quality, full-page flag and clip play no part. */
    method Screenshot(opts: ScreenshotOptions, reply: Result<seq<CdpClient.U8>, Error>) returns (r: Result<seq<CdpClient.U8>, Error>)
      requires Valid()
      modifies this
      ensures Valid() && active == old(active)
      ensures !active ==> r == Err(PageNotFound(id)) && calls == old(calls)
      ensures active ==> calls == old(calls) + [ScreenshotCall(ConvertScreenshotFormat(opts.format))] && r == reply
    {
      if !active {
        return Err(PageNotFound(id));
      }
      calls := calls + [ScreenshotCall(ConvertScreenshotFormat(opts.format))];
      r := reply;
    }

    /** set_viewport: the device-metrics override with the page's mobile flag; its reply is dropped, but an error in it is passed on. */
    method SetViewport(width: nat, height: nat, scale: real, reply: Result<Json, Error>) returns (r: Result<(), Error>)
      requires Valid()
      modifies this
      ensures Valid() && active == old(active)
      ensures !active ==> r == Err(PageNotFound(id)) && calls == old(calls)
      ensures active ==> calls == old(calls) + [ViewportCall(width, height, scale, options.isMobile)]
      ensures active ==> (r.Ok? <==> reply.Ok?) && (reply.Err? ==> r == Err(reply.error))
    {
      if !active {
        return Err(PageNotFound(id));
      }
      calls := calls + [ViewportCall(width, height, scale, options.isMobile)];
      if reply.Err? {
        return Err(reply.error);
      }
      r := Ok(());
    }

    /** close: an inactive page answers Ok and sends nothing; an active one sends Page.close and goes inactive whatever the answer (which only feeds a log line). */
    method Close() returns (r: Result<(), Error>)
      requires Valid()
      modifies this
      ensures Valid()
      ensures r == Ok(()) && !active
      ensures !old(active) ==> calls == old(calls)
      ensures old(active) ==> calls == old(calls) + [PageCloseCall]
    {
      if !active {
        return Ok(());
      }
      calls := calls + [PageCloseCall];
      active := false;
      r := Ok(());
    }

    /** is_active: the flag, or false while a writer holds its lock. */
    method IsActive(writerHolding: bool) returns (a: bool)
      ensures a <==> active && !writerHolding
    {
      a := active && !writerHolding;
    }
  }
}
