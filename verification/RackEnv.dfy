/**
 * The Rack environment of a request, built in a hash taken from a pool of recycled ones.
 */
module RackEnv {
  datatype Value = Text(text: string) | Flag(flag: bool) | Number(n: int) | Nil | Object(id: nat)
  type Env = map<string, Value>

  // ---------------------------------------------------------------------
  // The template and the pool
  // ---------------------------------------------------------------------

  /** Keys with the same value in every environment. */
  function ConstantKeys(): set<string> {
    {"SERVER_SOFTWARE", "rack.errors", "rack.multithread", "rack.multiprocess", "rack.run_once", "rack.hijack?",
     "rack.multipart.buffer_size"}
  }

  /** Keys set anew for every request. */
  function RequestKeys(): set<string> {
    {"SCRIPT_NAME", "REQUEST_METHOD", "PATH_INFO", "REQUEST_PATH", "QUERY_STRING", "REMOTE_ADDR", "SERVER_PORT",
     "SERVER_NAME", "SERVER_PROTOCOL", "HTTP_HOST", "HTTP_VERSION", "itsi.request", "itsi.response", "rack.version",
     "rack.url_scheme", "rack.input", "rack.hijack"}
  }

  /** `errors` is what `$stderr` is at the moment. */
  function ConstantValue(key: string, errors: Value): Value
    requires key in ConstantKeys()
  {
    if key == "SERVER_SOFTWARE" then Text("Itsi")
    else if key == "rack.errors" then errors
    else if key == "rack.run_once" then Flag(false)
    else if key == "rack.multipart.buffer_size" then Number(16384)
    else Flag(true)
  }

  /** The frozen template, made when `$stderr` was `errors`. */
  function Template(errors: Value): Env {
    map k | k in ConstantKeys() + RequestKeys() ::
      if k in ConstantKeys() then ConstantValue(k, errors) else if k == "rack.version" then Nil else Text("")
  }

  /** A recycled hash as it comes out of the pool. */
  function Refreshed(h: Env, errors: Value): Env {
    map k | k in h && (k in ConstantKeys() || k in RequestKeys()) ::
      if k in ConstantKeys() then ConstantValue(k, errors) else h[k]
  }

  class RackEnvPool {
    const template: Env
    var pool: seq<Env>

    constructor (errors: Value)
      ensures template == Template(errors) && pool == []
    {
      template, pool := Template(errors), [];
    }

    method Checkout(errors: Value) returns (env: Env)
      modifies this`pool
      ensures old(pool) == [] ==> pool == [] && env == template
      ensures old(pool) != [] ==>
                old(pool) == pool + [old(pool)[|old(pool)| - 1]] && env == Refreshed(old(pool)[|old(pool)| - 1], errors)
    {
      hide ConstantKeys, RequestKeys, ConstantValue;
      if pool == [] {
        return template;
      }
      var h := pool[|pool| - 1];
      pool := pool[..|pool| - 1];
      env := h;
      var left := h.Keys;
      while left != {}
        invariant left <= h.Keys
        invariant forall k :: k in env <==> k in h && (k in left || k in ConstantKeys() || k in RequestKeys())
        invariant forall k :: k in env ==>
                    env[k] == if k !in left && k in ConstantKeys() then ConstantValue(k, errors) else h[k]
        decreases |left|
      {
        var key :| key in left;
        left := left - {key};
        if key in ConstantKeys() {
          env := env[key := ConstantValue(key, errors)];
        } else if key !in RequestKeys() {
          env := env - {key};
        }
      }
      assert env == Refreshed(h, errors);
    }

    method Checkin(env: Env)
      modifies this`pool
      ensures pool == old(pool) + [env]
    {
      pool := pool + [env];
    }
  }

  // ---------------------------------------------------------------------
  // Filling in a request
  // ---------------------------------------------------------------------

  datatype Request = Request(
    scriptName: string, requestMethod: string, path: string, queryString: string, remoteAddr: string, port: string,
    host: string, version: string, scheme: string, self: nat, response: nat, input: nat, hijack: nat,
    headers: seq<(string, string)>)

  /** The version array of the known HTTP versions. */
  function RackVersion(version: string): Value {
    if version == "HTTP/0.9" || version == "HTTP/1.0" || version == "HTTP/1.1" || version == "HTTP/2.0" ||
       version == "HTTP/3.0"
    then Text(version) else Nil
  }

  function Upcase(c: char): char {
    if 'a' <= c <= 'z' then (c as int - 32) as char else if c == '-' then '_' else c
  }

  function UpcaseAll(s: string): string {
    if s == "" then "" else [Upcase(s[0])] + UpcaseAll(s[1..])
  }

  function RackHeader(name: string): string {
    if name == "content-type" then "CONTENT_TYPE"
    else if name == "content-length" then "CONTENT_LENGTH"
    else "HTTP_" + UpcaseAll(name)
  }

  function Fixed(r: Request): (m: Env)
    ensures m.Keys == RequestKeys()
  {
    map[
      "SCRIPT_NAME" := Text(r.scriptName), "REQUEST_METHOD" := Text(r.requestMethod), "PATH_INFO" := Text(r.path),
      "REQUEST_PATH" := Text(r.path), "QUERY_STRING" := Text(r.queryString), "REMOTE_ADDR" := Text(r.remoteAddr),
      "SERVER_PORT" := Text(r.port), "SERVER_NAME" := Text(r.host), "HTTP_HOST" := Text(r.host),
      "SERVER_PROTOCOL" := Text(r.version), "HTTP_VERSION" := Text(r.version), "itsi.request" := Object(r.self),
      "itsi.response" := Object(r.response), "rack.version" := RackVersion(r.version),
      "rack.url_scheme" := Text(r.scheme), "rack.input" := Object(r.input), "rack.hijack" := Object(r.hijack)]
  }

  /** The header fields, in order; a later one of the same name wins. */
  function Headers(hs: seq<(string, string)>): Env {
    if hs == [] then map[]
    else Headers(hs[..|hs| - 1])[RackHeader(hs[|hs| - 1].0) := Text(hs[|hs| - 1].1)]
  }

  function Filled(env: Env, r: Request): Env {
    env + Fixed(r) + Headers(r.headers)
  }

  method ToRackEnv(checkedOut: Env, r: Request) returns (env: Env)
    ensures env == Filled(checkedOut, r)
  {
    hide Fixed, RackHeader;
    env := checkedOut + Fixed(r);
    for i := 0 to |r.headers|
      invariant env == checkedOut + Fixed(r) + Headers(r.headers[..i])
    {
      var (name, value) := r.headers[i];
      env := env[RackHeader(name) := Text(value)];
      assert r.headers[..i + 1][..i] == r.headers[..i];
    }
    assert r.headers[..|r.headers|] == r.headers;
  }

  // ---------------------------------------------------------------------
  // A recycled hash is as good as a new one
  // ---------------------------------------------------------------------

  lemma ConstantNotFromHeader(key: string)
    requires key in ConstantKeys()
    ensures !FromHeader(key)
  {
  }

  lemma HeadersKeepConstants(hs: seq<(string, string)>)
    ensures Headers(hs).Keys !! ConstantKeys()
  {
    forall key | key in Headers(hs)
      ensures key !in ConstantKeys()
    {
      HeaderKeys(hs, key);
      if key in ConstantKeys() { ConstantNotFromHeader(key); }
    }
    hide Headers, ConstantKeys;
  }

  /**
   * The environment built in a recycled hash equals the one built in a fresh copy of the template exactly if
   * the seven constant keys were left in the hash and `$stderr` is still what it was when the template was made.
   */
  lemma RecycledEqualsFreshIff(h: Env, r: Request, errorsThen: Value, errorsNow: Value)
    ensures Filled(Refreshed(h, errorsNow), r) == Filled(Template(errorsThen), r) <==>
            ConstantKeys() <= h.Keys && errorsNow == errorsThen
  {
    hide *;
    if ConstantKeys() <= h.Keys && errorsNow == errorsThen {
      RecycledAgrees(h, r, errorsNow);
    } else {
      RecycledDiffers(h, r, errorsThen, errorsNow);
    }
  }

  lemma RecycledAgrees(h: Env, r: Request, errors: Value)
    requires ConstantKeys() <= h.Keys
    ensures Filled(Refreshed(h, errors), r) == Filled(Template(errors), r)
  {
    hide *;
    var a, b := Filled(Refreshed(h, errors), r), Filled(Template(errors), r);
    SameOutside(h, r, errors, errors);
    forall k
      ensures (k in a <==> k in b) && (k in a ==> a[k] == b[k])
    {
      if k in ConstantKeys() { AtConstant(h, r, errors, errors, k); }
    }
  }

  lemma RecycledDiffers(h: Env, r: Request, errorsThen: Value, errorsNow: Value)
    requires !(ConstantKeys() <= h.Keys && errorsNow == errorsThen)
    ensures Filled(Refreshed(h, errorsNow), r) != Filled(Template(errorsThen), r)
  {
    hide Filled, Refreshed, Template, ConstantKeys;
    if ConstantKeys() <= h.Keys {
      KeysApart();
      AtConstant(h, r, errorsThen, errorsNow, "rack.errors");
    } else {
      var k :| k in ConstantKeys() && k !in h;
      AtConstant(h, r, errorsThen, errorsNow, k);
    }
  }

  lemma AtConstant(h: Env, r: Request, errorsThen: Value, errorsNow: Value, k: string)
    requires k in ConstantKeys()
    ensures var a, b := Filled(Refreshed(h, errorsNow), r), Filled(Template(errorsThen), r);
            && (k in a <==> k in h) && k in b && b[k] == ConstantValue(k, errorsThen)
            && (k in h ==> a[k] == ConstantValue(k, errorsNow))
  {
    HeadersKeepConstants(r.headers);
    KeysApart();
    hide ConstantKeys, RequestKeys, ConstantValue, Fixed, Headers;
  }

  lemma KeysApart()
    ensures ConstantKeys() !! RequestKeys() && "rack.errors" in ConstantKeys()
  {
  }

  /** Beside the constant keys, recycled and fresh environments always agree. */
  lemma SameOutside(h: Env, r: Request, errorsThen: Value, errorsNow: Value)
    ensures var a, b := Filled(Refreshed(h, errorsNow), r), Filled(Template(errorsThen), r);
            forall k :: k !in ConstantKeys() ==> (k in a <==> k in b) && (k in a ==> a[k] == b[k])
  {
    hide ConstantKeys, RequestKeys, ConstantValue, Fixed, Headers;
  }

  /** A history: requests are given environments, and handlers return hashes to the pool. */
  datatype Step = Serve(r: Request) | Return(h: Env)

  /** The environments given out along a history that starts with this pool. */
  function Served(pool: seq<Env>, steps: seq<Step>, errors: Value): seq<Env>
    decreases steps
  {
    if steps == [] then []
    else
      match steps[0]
      case Return(h) => Served(pool + [h], steps[1..], errors)
      case Serve(r) =>
        if pool == [] then [Filled(Template(errors), r)] + Served(pool, steps[1..], errors)
        else [Filled(Refreshed(pool[|pool| - 1], errors), r)] + Served(pool[..|pool| - 1], steps[1..], errors)
  }

  /** The environments along the same history without a pool. */
  function ServedFresh(steps: seq<Step>, errors: Value): seq<Env> {
    if steps == [] then []
    else (if steps[0].Serve? then [Filled(Template(errors), steps[0].r)] else []) + ServedFresh(steps[1..], errors)
  }

  predicate KeepsConstants(h: Env) {
    ConstantKeys() <= h.Keys
  }

  /** As long as no handler deletes one of the constant keys, the pool cannot be noticed. */
  lemma {:induction false} PoolUnnoticed(pool: seq<Env>, steps: seq<Step>, errors: Value)
    requires forall i :: 0 <= i < |pool| ==> KeepsConstants(pool[i])
    requires forall i :: 0 <= i < |steps| && steps[i].Return? ==> KeepsConstants(steps[i].h)
    ensures Served(pool, steps, errors) == ServedFresh(steps, errors)
    decreases steps
  {
    hide Filled, Refreshed, Template;
    if steps != [] {
      match steps[0]
      case Return(h) => PoolUnnoticed(pool + [h], steps[1..], errors);
      case Serve(r) =>
        if pool == [] {
          PoolUnnoticed(pool, steps[1..], errors);
        } else {
          RecycledEqualsFreshIff(pool[|pool| - 1], r, errors, errors);
          PoolUnnoticed(pool[..|pool| - 1], steps[1..], errors);
        }
    }
  }

  // ---------------------------------------------------------------------
  // What an application finds in the environment
  // ---------------------------------------------------------------------

  const SMALL := "abcdefghijklmnopqrstuvwxyz"
  const LARGE := "ABCDEFGHIJKLMNOPQRSTUVWXYZ"

  lemma UpcaseLetter(i: nat)
    requires i < |SMALL|
    ensures |LARGE| == |SMALL| && Upcase(SMALL[i]) == LARGE[i]
  {
    assert SMALL[i] as int == 'a' as int + i && LARGE[i] as int == 'A' as int + i;
  }

  lemma {:induction false} UpcaseEach(s: string)
    ensures |UpcaseAll(s)| == |s| && forall i :: 0 <= i < |s| ==> UpcaseAll(s)[i] == Upcase(s[i])
  {
    hide Upcase;
    if s != "" { UpcaseEach(s[1..]); }
  }

  /** A header field goes under its name in capitals with underscores, behind `HTTP_`; two names go without that. */
  lemma HeaderName(name: string)
    ensures var key := RackHeader(name);
            if name == "content-type" then key == "CONTENT_TYPE"
            else if name == "content-length" then key == "CONTENT_LENGTH"
            else
              && |key| == 5 + |name| && key[..5] == "HTTP_"
              && forall i :: 0 <= i < |name| ==>
                   && (forall d :: 0 <= d < |SMALL| && name[i] == SMALL[d] ==> key[5 + i] == LARGE[d])
                   && (name[i] == '-' ==> key[5 + i] == '_')
                   && (name[i] !in SMALL && name[i] != '-' ==> key[5 + i] == name[i])
  {
    UpcaseEach(name);
    forall i, d | 0 <= i < |name| && 0 <= d < |SMALL| && name[i] == SMALL[d]
      ensures Upcase(name[i]) == LARGE[d]
    {
      UpcaseLetter(d);
    }
    forall i | 0 <= i < |name| && name[i] !in SMALL && name[i] != '-'
      ensures Upcase(name[i]) == name[i]
    {
      if 'a' <= name[i] <= 'z' { LetterIsSmall(name[i]); }
    }
    hide Upcase, UpcaseAll;
  }

  lemma LetterIsSmall(c: char)
    requires 'a' <= c <= 'z'
    ensures c in SMALL
  {
    var i := c as int - 'a' as int;
    assert SMALL[i] as int == 'a' as int + i;
  }

  /** Header fields go only under keys that begin with H or C. */
  lemma {:induction false} HeaderKeys(hs: seq<(string, string)>, key: string)
    requires key in Headers(hs)
    ensures FromHeader(key)
  {
    if hs != [] && key in Headers(hs[..|hs| - 1]) { HeaderKeys(hs[..|hs| - 1], key); }
  }

  /** Each header field is found under its name, unless a later one goes there too. */
  lemma {:induction false} HeaderFound(hs: seq<(string, string)>, i: nat)
    requires i < |hs| && forall j :: i < j < |hs| ==> RackHeader(hs[j].0) != RackHeader(hs[i].0)
    ensures RackHeader(hs[i].0) in Headers(hs) && Headers(hs)[RackHeader(hs[i].0)] == Text(hs[i].1)
    decreases |hs|
  {
    hide RackHeader;
    if i < |hs| - 1 { HeaderFound(hs[..|hs| - 1], i); }
  }

  /** What an application finds under each key that stands for the request itself. */
  function RequestValue(r: Request, key: string): Value {
    if key == "rack.hijack" then Object(r.hijack)
    else if key == "rack.input" then Object(r.input)
    else if key == "rack.url_scheme" then Text(r.scheme)
    else if key == "rack.version" then RackVersion(r.version)
    else if key == "itsi.response" then Object(r.response)
    else if key == "itsi.request" then Object(r.self)
    else if key == "HTTP_VERSION" || key == "SERVER_PROTOCOL" then Text(r.version)
    else if key == "HTTP_HOST" || key == "SERVER_NAME" then Text(r.host)
    else if key == "SERVER_PORT" then Text(r.port)
    else if key == "REMOTE_ADDR" then Text(r.remoteAddr)
    else if key == "QUERY_STRING" then Text(r.queryString)
    else if key == "REQUEST_PATH" || key == "PATH_INFO" then Text(r.path)
    else if key == "REQUEST_METHOD" then Text(r.requestMethod)
    else Text(r.scriptName)
  }

  lemma FixedAt(r: Request, key: string)
    requires key in Fixed(r)
    ensures Fixed(r)[key] == RequestValue(r, key)
  {
    hide RackVersion, RequestKeys;
  }

  predicate FromHeader(key: string) {
    key != "" && (key[0] == 'H' || key[0] == 'C')
  }

  lemma FewFromHeader(key: string)
    requires key in RequestKeys() && FromHeader(key)
    ensures key == "HTTP_HOST" || key == "HTTP_VERSION"
  {
  }

  /**
   * Whatever was in the hash and whatever header fields come with the request, each of these keys holds what stands
   * for the request; only `HTTP_HOST` and `HTTP_VERSION` may be taken over by a header field.
   */
  lemma RequestFound(env: Env, r: Request, key: string)
    requires key in RequestKeys()
    ensures key in Filled(env, r)
    ensures key == "HTTP_HOST" || key == "HTTP_VERSION" || Filled(env, r)[key] == RequestValue(r, key)
  {
    hide Headers, Fixed, RequestKeys, RequestValue, FromHeader;
    FixedAt(r, key);
    if key in Headers(r.headers) {
      HeaderKeys(r.headers, key);
      FewFromHeader(key);
    }
  }

  /** The constant values, by key. */
  lemma ConstantsFound(r: Request, errors: Value)
    ensures var e := Filled(Template(errors), r);
            && ConstantKeys() <= e.Keys
            && e["SERVER_SOFTWARE"] == Text("Itsi") && e["rack.errors"] == errors
            && e["rack.multithread"] == Flag(true) && e["rack.multiprocess"] == Flag(true)
            && e["rack.run_once"] == Flag(false) && e["rack.hijack?"] == Flag(true)
            && e["rack.multipart.buffer_size"] == Number(16384)
  {
    forall k | k in ConstantKeys()
      ensures k in Filled(Template(errors), r) && Filled(Template(errors), r)[k] == ConstantValue(k, errors)
    {
      AtConstant(Template(errors), r, errors, errors, k);
    }
    hide Filled, Template;
  }

  /** A fresh hash is blank where the request is still to be filled in. */
  lemma TemplateIsBlank(key: string, errors: Value)
    requires key in RequestKeys()
    ensures key in Template(errors) && Template(errors)[key] == if key == "rack.version" then Nil else Text("")
  {
    KeysApart();
    hide ConstantKeys, RequestKeys, ConstantValue;
  }
}
