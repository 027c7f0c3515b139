/**
 * Stand-ins for the HTTP library the SDK drives: what a response looks like to the SDK,
 * what a failed request carries, the per-request configuration the interceptors mutate,
 * and the query-string buffer the resource methods fill.
 */
module Http {
  import opened Wrappers
  import opened Js

  type Headers = map<string, string>

  /** Field-level validation errors as sent by the API: field name to messages. */
  type FieldErrors = map<string, seq<string>>

  /**
   * A response body, represented by the fields the SDK reads from it
   * (`message`, `code`, `entityId`, `errors`, `retryAfter`); each may be absent.
   */
  datatype Body = Body(
    message: Option<string>,
    code: Option<string>,
    entityId: Option<string>,
    errors: Option<FieldErrors>,
    retryAfter: Option<int>)

  /** A received response; `data` is `None` when the body is empty or not an object. */
  datatype Response = Response(status: int, data: Option<Body>)

  /**
   * A failed request as the response interceptor sees it: the transport's own message,
   * whether the request configuration is attached, and the response if one arrived.
   */
  datatype AxiosFailure = AxiosFailure(message: string, hasConfig: bool, response: Option<Response>)

  /** What one attempt of a request produces: a response, or a failure. */
  datatype Attempt = Delivered(response: Response) | Failed(error: AxiosFailure)

  /**
   * The configuration object of one logical request. The request interceptor rewrites its
   * headers before every attempt; the response interceptor keeps its retry counter on it.
   */
  class RequestConfig {
    var headers: Headers
    var retryCount: nat

    constructor (headers: Headers)
      ensures this.headers == headers && retryCount == 0
    {
      this.headers := headers;
      retryCount := 0;
    }
  }

  /** `k=v` pairs joined by `&`; percent-encoding is not modelled. */
  function FormatQuery(params: seq<(string, string)>): (q: string)
    decreases |params|
  {
    if params == [] then ""
    else
      var pair := params[0].0 + "=" + params[0].1;
      if |params| == 1 then pair else pair + "&" + FormatQuery(params[1..])
  }

  /** The query string is empty exactly when no parameter was appended. */
  lemma {:induction false} FormatQueryEmpty(params: seq<(string, string)>)
    ensures FormatQuery(params) == "" <==> params == []
  {
    if params != [] {
      var pair := params[0].0 + "=" + params[0].1;
      assert |pair| > 0;
      if |params| > 1 {
        assert |FormatQuery(params)| >= |pair|;
      }
    }
  }

  /** `base` followed by `?query` when the query string is non-empty. */
  function PathWithQuery(base: string, params: seq<(string, string)>): (path: string)
    ensures |path| >= |base| && path[..|base|] == base
    ensures path == base <==> FormatQuery(params) == ""
    ensures path != base ==> path[|base|..] == "?" + FormatQuery(params)
  {
    var query := FormatQuery(params);
    base + (if query != "" then "?" + query else "")
  }

  /**
   * The parameters a chain of `if (value) params.append(key, value)` emits for the
   * candidates `(key, value)` in order: the truthy ones, with their values.
   */
  function KeepTruthy(candidates: seq<(string, Option<string>)>): seq<(string, string)>
    decreases |candidates|
  {
    if candidates == [] then [] else Emitted(candidates[0]) + KeepTruthy(candidates[1..])
  }

  /** What one `if (value) params.append(key, value)` emits. */
  function Emitted(candidate: (string, Option<string>)): seq<(string, string)> {
    var (key, value) := candidate;
    if TruthyString(value) then [(key, value.value)] else []
  }

  /** Emitting the candidates of two groups one after the other keeps the groups' order. */
  lemma {:induction false} KeepTruthyAppend(a: seq<(string, Option<string>)>, b: seq<(string, Option<string>)>)
    ensures KeepTruthy(a + b) == KeepTruthy(a) + KeepTruthy(b)
    decreases |a|
  {
    if a != [] {
      assert (a + b)[1..] == a[1..] + b;
      KeepTruthyAppend(a[1..], b);
    } else {
      assert a + b == b;
    }
  }

  /** Appending one more candidate appends what it emits. */
  lemma KeepTruthySnoc(c: seq<(string, Option<string>)>, x: (string, Option<string>))
    ensures KeepTruthy(c + [x]) == KeepTruthy(c) + Emitted(x)
  {
    KeepTruthyAppend(c, [x]);
    assert [x][1..] == [];
  }

  /** Extending a prefix of the candidates by one appends what the next candidate emits. */
  lemma KeepTruthyPrefix(c: seq<(string, Option<string>)>, k: nat)
    requires k < |c|
    ensures KeepTruthy(c[..k + 1]) == KeepTruthy(c[..k]) + Emitted(c[k])
  {
    assert c[..k + 1] == c[..k] + [c[k]];
    KeepTruthySnoc(c[..k], c[k]);
  }

  /** A pair is emitted exactly when it is a candidate whose value is truthy. */
  lemma {:induction false} KeepTruthyMember(candidates: seq<(string, Option<string>)>, p: (string, string))
    ensures p in KeepTruthy(candidates) <==> p.1 != "" && (p.0, Some(p.1)) in candidates
    decreases |candidates|
  {
    if candidates != [] {
      var head := Emitted(candidates[0]);
      KeepTruthyMember(candidates[1..], p);
      assert KeepTruthy(candidates) == head + KeepTruthy(candidates[1..]);
      assert p in head <==> p.1 != "" && (p.0, Some(p.1)) == candidates[0];
      assert candidates == [candidates[0]] + candidates[1..];
    }
  }

  /** A candidate whose key is its own and whose value is falsy emits no pair with that key. */
  lemma KeepTruthyOmits(candidates: seq<(string, Option<string>)>, i: nat)
    requires i < |candidates| && !TruthyString(candidates[i].1)
    requires forall j :: 0 <= j < |candidates| && j != i ==> candidates[j].0 != candidates[i].0
    ensures forall v :: (candidates[i].0, v) !in KeepTruthy(candidates)
  {
    forall v ensures (candidates[i].0, v) !in KeepTruthy(candidates) {
      KeepTruthyMember(candidates, (candidates[i].0, v));
      if v != "" {
        assert forall j :: 0 <= j < |candidates| ==> candidates[j] != (candidates[i].0, Some(v));
      }
    }
  }

  /** A candidate whose value is truthy emits its pair. */
  lemma KeepTruthyKeeps(candidates: seq<(string, Option<string>)>, i: nat)
    requires i < |candidates| && TruthyString(candidates[i].1)
    ensures (candidates[i].0, candidates[i].1.value) in KeepTruthy(candidates)
  {
    KeepTruthyMember(candidates, (candidates[i].0, candidates[i].1.value));
  }

  /** Nothing is emitted exactly when no candidate's value is truthy. */
  lemma {:induction false} KeepTruthyEmpty(candidates: seq<(string, Option<string>)>)
    ensures KeepTruthy(candidates) == [] <==> forall i :: 0 <= i < |candidates| ==> !TruthyString(candidates[i].1)
    decreases |candidates|
  {
    if candidates != [] {
      KeepTruthyEmpty(candidates[1..]);
      assert forall i :: 1 <= i < |candidates| ==> candidates[i] == candidates[1..][i - 1];
    }
  }

  /** A path built from candidates has no query exactly when no candidate is truthy. */
  lemma BareQueryPath(base: string, candidates: seq<(string, Option<string>)>)
    ensures PathWithQuery(base, KeepTruthy(candidates)) == base <==>
              forall i :: 0 <= i < |candidates| ==> !TruthyString(candidates[i].1)
  {
    FormatQueryEmpty(KeepTruthy(candidates));
    KeepTruthyEmpty(candidates);
    var query := FormatQuery(KeepTruthy(candidates));
    if query != "" {
      assert |PathWithQuery(base, KeepTruthy(candidates))| > |base|;
    }
  }

  /** The query-string buffer (`URLSearchParams`) the resource methods append to. */
  class SearchParams {
    var pairs: seq<(string, string)>

    constructor ()
      ensures pairs == []
    {
      pairs := [];
    }

    method Append(key: string, value: string)
      modifies this
      ensures pairs == old(pairs) + [(key, value)]
    {
      pairs := pairs + [(key, value)];
    }

    /** `if (value) params.append(key, value)`. */
    method AppendIfTruthy(key: string, value: Option<string>)
      modifies this
      ensures pairs == old(pairs) + Emitted((key, value))
    {
      if TruthyString(value) {
        Append(key, value.value);
      }
    }

    function ToString(): string
      reads this
    {
      FormatQuery(pairs)
    }
  }
}
