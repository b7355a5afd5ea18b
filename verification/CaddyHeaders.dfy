/** The request headers that a proxied request is given, and that they never bring back a credential. */
module CaddyHeaders {
  import opened Text
  import opened CaddyMatch
  import opened CaddyRoute

  type Headers = map<string, string>

  const HOST_PORT := "{http.request.hostport}"

  /** The name a route's header is set under; "" when it is not set at all. */
  function SetName(key: string, strip: seq<string>): string {
    var name := TrimSpace(key);
    if Lists(strip, name) then ""
    else if Lower(name) == "host" then "Host"
    else name
  }

  lemma UnusableNames(key: string, strip: seq<string>)
    ensures var name := TrimSpace(key);
            SetName(key, strip) ==
            if name == "" || Lists(strip, name) then "" else if Lower(name) == "host" then "Host" else name
  {
    hide TrimSpace, Lists;
  }

  function Default(tls: bool): Headers {
    if tls then map["Host" := HOST_PORT] else map[]
  }

  /** What is set when the headers are visited in the given order. */
  function SetBy(order: seq<string>, headers: Headers, tls: bool, strip: seq<string>): Headers
    requires forall k <- order :: k in headers
  {
    if order == [] then Default(tls)
    else
      var n := |order| - 1;
      var before, name := SetBy(order[..n], headers, tls, strip), SetName(order[n], strip);
      if name == "" then before else before[name := headers[order[n]]]
  }

  /** Maps are visited in any order, each key once. */
  predicate Enumerates(order: seq<string>, keys: set<string>) {
    (set k <- order) == keys && forall i, j :: 0 <= i < j < |order| ==> order[i] != order[j]
  }

  lemma OneMoreHeader(order: seq<string>, i: nat, headers: Headers, tls: bool, strip: seq<string>)
    requires i < |order| && forall k <- order :: k in headers
    ensures SetBy(order[..0], headers, tls, strip) == Default(tls)
    ensures var before, name := SetBy(order[..i], headers, tls, strip), SetName(order[i], strip);
            SetBy(order[..i + 1], headers, tls, strip) == if name == "" then before
            else before[name := headers[order[i]]]
  {
    hide SetName;
    assert order[..i + 1][..i] == order[..i];
  }

  method SetHeaders(headers: Headers, order: seq<string>, tls: bool, strip: seq<string>) returns (given: Headers)
    requires Enumerates(order, headers.Keys)
    ensures (forall k <- order :: k in headers) && given == SetBy(order, headers, tls, strip)
  {
    hide Lists, Lower, TrimSpace, SetName, Enumerates;
    given := map[];
    if tls {
      given := given["Host" := HOST_PORT];
    }
    Enumerated(order, headers);
    for i := 0 to |order|
      invariant given == SetBy(order[..i], headers, tls, strip)
    {
      OneMoreHeader(order, i, headers, tls, strip);
      UnusableNames(order[i], strip);
      var name := TrimSpace(order[i]);
      if name == "" || Lists(strip, name) {
        continue;
      }
      if Lower(name) == "host" {
        name := "Host";
      }
      given := given[name := headers[order[i]]];
    }
    assert order[..|order|] == order;
  }

  /** Which names are set, and from which of the keys each one has its value. */
  lemma {:induction false} SetMeaning(order: seq<string>, headers: Headers, tls: bool, strip: seq<string>, name: string)
    requires forall k <- order :: k in headers
    ensures var given := SetBy(order, headers, tls, strip);
            && (name in given <==>
                (tls && name == "Host") || (name != "" && exists k <- order :: SetName(k, strip) == name))
            && (name in given ==>
                  if exists k <- order :: SetName(k, strip) == name
                  then exists k <- order :: SetName(k, strip) == name && given[name] == headers[k]
                  else given[name] == "{http.request.hostport}")
  {
    hide SetName;
    if order != [] {
      var n := |order| - 1;
      SetMeaning(order[..n], headers, tls, strip, name);
      assert order == order[..n] + [order[n]];
      assert order[n] in order;
    }
  }

  /** No header of a route puts back what is removed: under a removed name, up to case, nothing is set except, over TLS,
      the host that is set by default. */
  lemma RemovedStaysRemoved(
    order: seq<string>, headers: Headers, tls: bool, policies: seq<Header>, h: Header, name: string)
    requires (forall k <- order :: k in headers) && h in policies && Lower(name) == Lower(h.name)
    requires name in SetBy(order, headers, tls, HeaderNames(policies))
    ensures tls && name == "Host" && SetBy(order, headers, tls, HeaderNames(policies))[name] == HOST_PORT
  {
    hide TrimSpace, HeaderNames, SetBy;
    var strip := HeaderNames(policies);
    SetMeaning(order, headers, tls, strip, name);
    CredentialsAreRemoved(policies, h);
    forall k | k in order && SetName(k, strip) == name && name != "" ensures false {
      NotRemoved(k, strip);
    }
  }

  lemma NotRemoved(key: string, strip: seq<string>)
    requires SetName(key, strip) != ""
    ensures !Lists(strip, SetName(key, strip))
  {
    assert Lower("Host") == "host";
  }

  // ---------- Order ----------

  predicate Agreeing(headers: Headers, strip: seq<string>) {
    forall j <- headers, k <- headers :: SetName(j, strip) == SetName(k, strip) != "" ==> headers[j] == headers[k]
  }

  ghost predicate SameInAnyOrder(headers: Headers, tls: bool, strip: seq<string>) {
    forall a, b :: Enumerates(a, headers.Keys) && Enumerates(b, headers.Keys) ==> SameResult(a, b, headers, tls, strip)
  }

  predicate SameResult(a: seq<string>, b: seq<string>, headers: Headers, tls: bool, strip: seq<string>)
    requires Enumerates(a, headers.Keys) && Enumerates(b, headers.Keys)
  {
    Enumerated(a, headers);
    Enumerated(b, headers);
    SetBy(a, headers, tls, strip) == SetBy(b, headers, tls, strip)
  }

  lemma Enumerated(order: seq<string>, headers: Headers)
    requires Enumerates(order, headers.Keys)
    ensures forall k :: k in order <==> k in headers
  {
    forall k ensures k in order <==> k in headers {
      assert k in order <==> k in (set x <- order);
    }
  }

  /** The order in which a route's headers are visited does not matter if and only if headers that differ only in white
      space around their names have one value. */
  lemma OrderIsIrrelevant(headers: Headers, tls: bool, strip: seq<string>)
    ensures SameInAnyOrder(headers, tls, strip) <==> Agreeing(headers, strip)
  {
    hide SetName;
    if Agreeing(headers, strip) {
      forall a, b | Enumerates(a, headers.Keys) && Enumerates(b, headers.Keys)
        ensures SameResult(a, b, headers, tls, strip)
      {
        AgreeingIsEnough(a, b, headers, tls, strip);
      }
    } else {
      var j, k :| j in headers && k in headers && SetName(j, strip) == SetName(k, strip) != ""
                  && headers[j] != headers[k];
      var a := EndingWith(headers.Keys, j);
      var b := EndingWith(headers.Keys, k);
      Enumerated(a, headers);
      Enumerated(b, headers);
      LastWins(a, headers, tls, strip);
      LastWins(b, headers, tls, strip);
      assert !SameResult(a, b, headers, tls, strip);
    }
  }

  lemma LastWins(order: seq<string>, headers: Headers, tls: bool, strip: seq<string>)
    requires order != [] && (forall k <- order :: k in headers) && SetName(order[|order| - 1], strip) != ""
    ensures var name, given := SetName(order[|order| - 1], strip), SetBy(order, headers, tls, strip);
            name in given && given[name] == headers[order[|order| - 1]]
  {
    hide SetName;
  }

  lemma AgreeingIsEnough(a: seq<string>, b: seq<string>, headers: Headers, tls: bool, strip: seq<string>)
    requires Agreeing(headers, strip) && Enumerates(a, headers.Keys) && Enumerates(b, headers.Keys)
    ensures SameResult(a, b, headers, tls, strip)
  {
    hide SetName, SetBy, Enumerates;
    Enumerated(a, headers);
    Enumerated(b, headers);
    var x, y := SetBy(a, headers, tls, strip), SetBy(b, headers, tls, strip);
    forall name ensures name in x <==> name in y
      ensures name in x ==> x[name] == y[name]
    {
      SetMeaning(a, headers, tls, strip, name);
      SetMeaning(b, headers, tls, strip, name);
    }
    assert x == y;
  }

  lemma {:induction false} EndingWith(keys: set<string>, last: string) returns (order: seq<string>)
    requires last in keys
    ensures Enumerates(order, keys) && order != [] && order[|order| - 1] == last
    decreases |keys|
  {
    if keys == {last} {
      order := [last];
    } else {
      var next :| next in keys && next != last;
      var before := EndingWith(keys - {last}, next);
      order := before + [last];
      assert forall k <- before :: k in (set x <- before);
      assert (set k <- order) == (set k <- before) + {last};
    }
  }
}
