/** Properties that relate several builder calls: header writes, credential
    round trips, and how the shared "clear after request" flag plays out
    across requests and across builders. */
module BuilderLaws {
  import opened Wrappers
  import opened Decimal
  import opened UriFormat
  import opened RequestBuilder

  // ---------------------------------------------------------------------------
  // URI
  // ---------------------------------------------------------------------------

  /** `%d` followed by plain text, with one integer argument. */
  lemma IntThenPlain(i: int, plain: string)
    requires forall k :: 0 <= k < |plain| ==> plain[k] != '%'
    ensures Format("%d" + plain, [IntArg(i)]) == Some(IntToString(i) + plain)
  {
    PlainTemplateUnchanged(plain, []);
    IntDirectiveConsumesArgument(plain, i, []);
    assert [IntArg(i)] + [] == [IntArg(i)];
  }

  /** Plain text followed by `%s`, with one argument. */
  lemma PlainThenStr(plain: string, a: Arg)
    requires forall k :: 0 <= k < |plain| ==> plain[k] != '%'
    ensures Format(plain + "%s", [a]) == Some(plain + ArgText(a))
  {
    PlainTemplateUnchanged("", []);
    StrDirectiveConsumesArgument("", a, []);
    assert "%s" + "" == "%s" && [a] + [] == [a] && ArgText(a) + "" == ArgText(a);
    PlainPrefixCopied(plain, "%s", [a]);
  }

  /** `%d`, plain text, then `%s`, with an integer and a second argument. */
  lemma IntPlainStr(i: int, plain: string, a: Arg)
    requires forall k :: 0 <= k < |plain| ==> plain[k] != '%'
    ensures Format("%d" + (plain + "%s"), [IntArg(i), a]) == Some(IntToString(i) + (plain + ArgText(a)))
  {
    PlainThenStr(plain, a);
    IntDirectiveConsumesArgument(plain + "%s", i, [a]);
    assert [IntArg(i)] + [a] == [IntArg(i), a];
  }

  /** The same after a plain prefix. */
  lemma PlainIntPlainStr(prefix: string, i: int, plain: string, a: Arg)
    requires forall k :: 0 <= k < |prefix| ==> prefix[k] != '%'
    requires forall k :: 0 <= k < |plain| ==> plain[k] != '%'
    ensures Format(prefix + ("%d" + (plain + "%s")), [IntArg(i), a])
              == Some(prefix + (IntToString(i) + (plain + ArgText(a))))
  {
    IntPlainStr(i, plain, a);
    PlainPrefixCopied(prefix, "%d" + (plain + "%s"), [IntArg(i), a]);
  }

  /** `%d` between two runs of plain text, with one integer argument. */
  lemma PlainIntPlain(prefix: string, i: int, plain: string)
    requires forall k :: 0 <= k < |prefix| ==> prefix[k] != '%'
    requires forall k :: 0 <= k < |plain| ==> plain[k] != '%'
    ensures Format(prefix + ("%d" + plain), [IntArg(i)]) == Some(prefix + (IntToString(i) + plain))
  {
    IntThenPlain(i, plain);
    PlainPrefixCopied(prefix, "%d" + plain, [IntArg(i)]);
  }

  /** `/v5/places/%d/basic` with 54, from the library's test suite (tests/RequestBuilderTest.php). */
  lemma OnePlaceholderUri()
    ensures Format("/v5/places/%d/basic", [IntArg(54)]) == Some("/v5/places/54/basic")
  {
    PlainIntPlain("/v5/places/", 54, "/basic");
    assert "/v5/places/" + (IntToString(54) + "/basic") == "/v5/places/54/basic";
    assert "/v5/places/" + ("%d" + "/basic") == "/v5/places/%d/basic";
  }

  /** `/v5/places/%d/basic/%s` with 54 and `NY`, from the library's test suite (tests/RequestBuilderTest.php). */
  lemma TwoPlaceholderUri()
    ensures Format("/v5/places/%d/basic/%s", [IntArg(54), StrArg("NY")]) == Some("/v5/places/54/basic/NY")
  {
    PlainIntPlainStr("/v5/places/", 54, "/basic/", StrArg("NY"));
    assert "/v5/places/" + (IntToString(54) + ("/basic/" + "NY")) == "/v5/places/54/basic/NY";
    assert "/v5/places/" + ("%d" + ("/basic/" + "%s")) == "/v5/places/%d/basic/%s";
  }

  /** The three URIs the library's test suite (tests/RequestBuilderTest.php)
      expects `setUri` to store. */
  lemma TestSuiteUris(b: Builder)
    ensures SetUri(b, "/v5/places/54", []) == Success(b.(uri := Some("/v5/places/54")))
    ensures SetUri(b, "/v5/places/%d/basic", [IntArg(54)]) == Success(b.(uri := Some("/v5/places/54/basic")))
    ensures SetUri(b, "/v5/places/%d/basic/%s", [IntArg(54), StrArg("NY")])
              == Success(b.(uri := Some("/v5/places/54/basic/NY")))
  {
    OnePlaceholderUri();
    TwoPlaceholderUri();
  }

  /** With or without arguments, a template free of `%` is stored as written. */
  lemma PlainUriIgnoresArguments(b: Builder, template: string, args: seq<Arg>)
    requires forall k :: 0 <= k < |template| ==> template[k] != '%'
    ensures SetUri(b, template, args) == Success(b.(uri := Some(template)))
  {
    if |args| > 0 {
      PlainTemplateUnchanged(template, args);
    }
  }

  /** An illustration on one fixed template, not a general law (the general
      statement is the first `ensures` of `SetUri`): an empty argument list
      keeps even a template with directives verbatim, while a non-empty one
      formats it. */
  lemma EmptyArgumentsKeepDirectives(b: Builder)
    ensures SetUri(b, "/a/%d", []) == Success(b.(uri := Some("/a/%d")))
    ensures SetUri(b, "/a/%d", [IntArg(7)]) == Success(b.(uri := Some("/a/7")))
  {
    assert IntToString(7) == "7";
    PlainTemplateUnchanged("", []);
    IntDirectiveConsumesArgument("", 7, []);
    assert "%d" + "" == "%d" && [IntArg(7)] + [] == [IntArg(7)] && "7" + "" == "7";
    PlainPrefixCopied("/a/", "%d", [IntArg(7)]);
    assert "/a/" + "%d" == "/a/%d" && "/a/" + "7" == "/a/7";
  }

  // ---------------------------------------------------------------------------
  // Headers
  // ---------------------------------------------------------------------------

  /** Writing a key twice keeps only the last value. */
  lemma HeaderLastWriteWins(b: Builder, key: string, first: string, second: string)
    ensures SetHeader(SetHeader(b, key, first), key, second) == SetHeader(b, key, second)
  {
  }

  /** Writes to different keys do not interfere. */
  lemma HeaderWritesCommute(b: Builder, k1: string, v1: string, k2: string, v2: string)
    requires k1 != k2
    ensures SetHeader(SetHeader(b, k1, v1), k2, v2) == SetHeader(SetHeader(b, k2, v2), k1, v1)
  {
  }

  /** An HTTP header can never land on a Basic-Auth entry. */
  lemma HttpHeaderIsNotCredential(key: string)
    ensures HttpHeaderKey(key) != AuthUserKey && HttpHeaderKey(key) != AuthPasswordKey
  {
    assert HttpHeaderKey(key)[0] == 'H';
    assert AuthUserKey[0] == 'P' && AuthPasswordKey[0] == 'P';
  }

  /** Distinct header names map to distinct server entries. */
  lemma HttpHeaderKeyInjective(k1: string, k2: string)
    requires HttpHeaderKey(k1) == HttpHeaderKey(k2)
    ensures k1 == k2
  {
  }

  /** Clearing credentials keeps HTTP headers, whichever happens first. */
  lemma UnsetCredentialsKeepsHttpHeaders(b: Builder, key: string, value: string)
    ensures UnsetCredentials(SetHttpHeader(b, key, value)) == SetHttpHeader(UnsetCredentials(b), key, value)
  {
    HttpHeaderIsNotCredential(key);
    var lhs := UnsetCredentials(SetHttpHeader(b, key, value));
    var rhs := SetHttpHeader(UnsetCredentials(b), key, value);
    assert lhs.server == rhs.server;
  }

  /** After `unsetHeaders` nothing is left for `unsetCredentials` to remove. */
  lemma UnsetHeadersRemovesCredentials(b: Builder)
    ensures NoCredentials(UnsetHeaders(b).server)
    ensures UnsetCredentials(UnsetHeaders(b)) == UnsetHeaders(b)
  {
  }

  // ---------------------------------------------------------------------------
  // Credentials
  // ---------------------------------------------------------------------------

  /** A falsy argument is the same as no argument at all. */
  lemma FalsyArgumentsFallBack(b: Builder, username: Option<string>, password: Option<string>)
    ensures SetCredentials(b, Some(""), password) == SetCredentials(b, None, password)
    ensures SetCredentials(b, Some("0"), password) == SetCredentials(b, None, password)
    ensures SetCredentials(b, username, Some("")) == SetCredentials(b, username, None)
    ensures SetCredentials(b, username, Some("0")) == SetCredentials(b, username, None)
  {
  }

  /** Without explicit credentials and without defaults `setCredentials` throws
      and, being a failure, leaves no entry behind. */
  lemma NoCredentialsAnywhereThrows(b: Builder)
    requires b.defaultUsername.None?
    ensures SetCredentials(b, None, None) == Failure(LogicException(MissingUsernameMessage))
  {
  }

  /** An empty-string default is not `null`: it is accepted and written. */
  lemma EmptyDefaultsAccepted(b: Builder)
    requires b.defaultUsername == Some("") && b.defaultPassword == Some("")
    ensures SetCredentials(b, None, None).Success?
    ensures SetCredentials(b, None, None).value.server[AuthUserKey] == ""
    ensures SetCredentials(b, None, None).value.server[AuthPasswordKey] == ""
  {
  }

  /** Defaults set with `setDefaultUsername` and `setDefaultPassword` are
      what `setCredentials` writes when called without arguments. */
  lemma DefaultsFillInCredentials(b: Builder, user: string, pass: string)
    ensures
      var b1 := SetDefaultPassword(SetDefaultUsername(b, Some(user)), Some(pass));
      && SetCredentials(b1, None, None).Success?
      && SetCredentials(b1, None, None).value.server[AuthUserKey] == user
      && SetCredentials(b1, None, None).value.server[AuthPasswordKey] == pass
  {
  }

  /** Clearing a default makes an argument-less `setCredentials` throw again. */
  lemma ClearedDefaultThrows(b: Builder, pass: Option<string>)
    ensures SetCredentials(SetDefaultUsername(b, None), None, pass)
              == Failure(LogicException(MissingUsernameMessage))
  {
  }

  /** Explicit truthy credentials win over defaults. */
  lemma ExplicitCredentialsWin(b: Builder, user: string, pass: string)
    requires Truthy(Some(user)) && Truthy(Some(pass))
    ensures SetCredentials(b, Some(user), Some(pass)).Success?
    ensures SetCredentials(b, Some(user), Some(pass)).value.server[AuthUserKey] == user
    ensures SetCredentials(b, Some(user), Some(pass)).value.server[AuthPasswordKey] == pass
  {
  }

  /** `unsetCredentials` undoes `setCredentials`: what is left is exactly
      what would be left without it. */
  lemma SetThenUnsetCredentials(b: Builder, username: Option<string>, password: Option<string>)
    requires SetCredentials(b, username, password).Success?
    ensures UnsetCredentials(SetCredentials(b, username, password).value) == UnsetCredentials(b)
  {
  }

  /** Removing credentials twice is removing them once. */
  lemma UnsetCredentialsIdempotent(b: Builder)
    ensures UnsetCredentials(UnsetCredentials(b)) == UnsetCredentials(b)
  {
  }

  /** Without credential entries `unsetCredentials` changes nothing. */
  lemma UnsetCredentialsWithoutCredentials(b: Builder)
    requires NoCredentials(b.server)
    ensures UnsetCredentials(b) == b
  {
  }

  // ---------------------------------------------------------------------------
  // Dispatch and the shared flag
  // ---------------------------------------------------------------------------

  /** Credentials given with `useCredentialsOnce` travel with the next request
      and are gone from the builder, and from the request after it. */
  lemma OnceCredentialsLastOneRequest(w: World, b: Builder, username: Option<string>, password: Option<string>)
    requires b.client.Some?
    requires UseCredentialsOnce(w, b, username, password).result.Success?
    ensures
      var o := UseCredentialsOnce(w, b, username, password);
      var creds := ResolveCredentials(b, username, password).value;
      var d1 := GetResponse(o.world, o.result.value);
      var d2 := GetResponse(d1.world, d1.builder);
      && d1.world.sent[|w.sent|].request.server[AuthUserKey] == creds.0
      && d1.world.sent[|w.sent|].request.server[AuthPasswordKey] == creds.1
      && NoCredentials(d1.builder.server)
      && !d1.world.clearCredentialsAfterRequest
      && NoCredentials(d2.world.sent[|w.sent| + 1].request.server)
  {
  }

  /** Credentials given with `setCredentials` persist across requests while
      the flag is not armed. */
  lemma PersistentCredentials(w: World, b: Builder, username: Option<string>, password: Option<string>)
    requires b.client.Some? && !w.clearCredentialsAfterRequest
    requires SetCredentials(b, username, password).Success?
    ensures
      var b1 := SetCredentials(b, username, password).value;
      var d1 := GetResponse(w, b1);
      var d2 := GetResponse(d1.world, d1.builder);
      && d1.builder == b1 && d2.builder == b1
      && HasCredentials(d2.world.sent[|w.sent|].request.server)
      && HasCredentials(d2.world.sent[|w.sent| + 1].request.server)
  {
  }

  /** The flag is shared: arming it through one builder makes the next request
      of any other builder lose that builder's credentials. */
  lemma FlagIsShared(w: World, other: Builder, b: Builder, username: Option<string>, password: Option<string>)
    requires b.client.Some? && HasCredentials(b.server)
    ensures
      var o := UseCredentialsOnce(w, other, username, password);
      var d := GetResponse(o.world, b);
      && HasCredentials(d.world.sent[|w.sent|].request.server)
      && NoCredentials(d.builder.server)
  {
  }

  /** The flag is armed before the credentials are resolved, so even a
      `useCredentialsOnce` that throws leaves it armed, and the next request
      strips persistent credentials. */
  lemma FailedOnceStillArms(w: World, b: Builder, username: Option<string>, password: Option<string>)
    requires b.client.Some? && HasCredentials(b.server)
    requires SetCredentials(b, username, password).Failure?
    ensures UseCredentialsOnce(w, b, username, password).world.clearCredentialsAfterRequest
    ensures NoCredentials(GetResponse(UseCredentialsOnce(w, b, username, password).world, b).builder.server)
  {
  }

  /** A process starts with the flag disarmed, so its first request keeps the
      builder's credentials. */
  lemma FreshProcessKeepsCredentials(b: Builder)
    requires b.client.Some?
    ensures !InitialWorld.clearCredentialsAfterRequest && InitialWorld.sent == []
    ensures GetResponse(InitialWorld, b).builder == b
    ensures GetResponse(InitialWorld, b).world.sent == [Sent(b.client.value, Snapshot(b))]
  {
  }

  /** Every request carries the fields last given to the trivial setters. */
  lemma SettersReachTheRequest(w: World, b: Builder, m: string, c: string, f: FieldMap, p: FieldMap)
    requires b.client.Some?
    ensures
      var b1 := SetParameters(SetFiles(SetContent(SetMethod(b, m), c), f), p);
      var req := GetResponse(w, b1).world.sent[|w.sent|].request;
      req == Request(Some(m), b.uri, p, f, b.server, Some(c))
  {
  }

  // ---------------------------------------------------------------------------
  // Chains
  // ---------------------------------------------------------------------------

  /** Running `calls` then `last` is running the chain and applying `last`
      to its builder, unless the chain threw. */
  lemma {:induction false} RunSnoc(w: World, b: Builder, calls: seq<Call>, last: Call)
    ensures Run(w, b, calls + [last]) ==
              (var o := Run(w, b, calls);
               if o.result.Failure? then o else Apply(o.world, o.result.value, last))
    decreases |calls|
  {
    if |calls| == 0 {
      assert calls + [last] == [last];
      assert [last][1..] == [];
    } else {
      assert (calls + [last])[1..] == calls[1..] + [last];
      var step := Apply(w, b, calls[0]);
      if step.result.Success? {
        RunSnoc(step.world, step.result.value, calls[1..], last);
      }
    }
  }

  /** A chain that ends in a successful `getResponse` leaves the flag disarmed
      and the request it sent at the end of the trace. */
  lemma {:induction false} ChainEndingInDispatchDisarms(w: World, b: Builder, calls: seq<Call>)
    requires |calls| > 0 && calls[|calls| - 1] == CallGetResponse
    requires Run(w, b, calls).result.Success?
    ensures !Run(w, b, calls).world.clearCredentialsAfterRequest
    ensures |Run(w, b, calls).world.sent| > |w.sent|
  {
    var prefix := calls[..|calls| - 1];
    assert calls == prefix + [CallGetResponse];
    RunSnoc(w, b, prefix, CallGetResponse);
  }

  /** The credentials a test sends with `useCredentialsOnce` then
      `getResponse` are the ones it named, and they are gone afterwards. */
  lemma OnceChain(w: World, b: Builder, user: string, pass: string)
    requires b.client.Some? && Truthy(Some(user)) && Truthy(Some(pass))
    ensures
      var o := Run(w, b, [CallUseCredentialsOnce(Some(user), Some(pass)), CallGetResponse]);
      && o.result.Success?
      && |o.world.sent| > |w.sent|
      && HasCredentials(o.world.sent[|w.sent|].request.server)
      && o.world.sent[|w.sent|].request.server[AuthUserKey] == user
      && o.world.sent[|w.sent|].request.server[AuthPasswordKey] == pass
      && NoCredentials(o.result.value.server)
  {
    var calls := [CallUseCredentialsOnce(Some(user), Some(pass)), CallGetResponse];
    var first := Apply(w, b, calls[0]);
    assert first.result.Success?;
    assert calls[1..] == [CallGetResponse];
    var second := Apply(first.world, first.result.value, CallGetResponse);
    assert [CallGetResponse][1..] == [];
    assert Run(w, b, calls) == Run(first.world, first.result.value, [CallGetResponse]);
    assert Run(first.world, first.result.value, [CallGetResponse]) == Run(second.world, second.result.value, []);
  }
}
