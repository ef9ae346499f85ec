/** The per-request execution context of context.go: captured parameters, the
    handler chain and its cursor, input lookups over an already-parsed request,
    the response header and the user-data store. */
module Contexts {
  import opened Values

  /** The first parameter named `name` decides the value; "" when none is. */
  ghost predicate IsFirstValue(ps: seq<Param>, name: string, value: string) {
    && ((forall i :: 0 <= i < |ps| ==> ps[i].key != name) ==> value == "")
    && (forall i :: 0 <= i < |ps| && ps[i].key == name && (forall j :: 0 <= j < i ==> ps[j].key != name) ==>
          value == ps[i].value)
  }

  /** `Params.ByName`. */
  method ByName(ps: seq<Param>, name: string) returns (value: string)
    ensures IsFirstValue(ps, name, value)
  {
    for i := 0 to |ps|
      invariant forall j :: 0 <= j < i ==> ps[j].key != name
    {
      if ps[i].key == name {
        return ps[i].value;
      }
    }
    return "";
  }

  /** The smaller of two integers. */
  function Lesser(x: int, y: int): int {
    if x < y then x else y
  }

  /** The handler indices `lo`, `lo + 1`, ..., `hi - 1`, in order. */
  function Span(lo: int, hi: int): seq<int>
    decreases hi - lo
  {
    if lo >= hi then [] else [lo] + Span(lo + 1, hi)
  }

  /** `Span` lists every index of the range once, in increasing order. */
  lemma {:induction false} SpanIndices(lo: int, hi: int)
    requires lo <= hi
    ensures |Span(lo, hi)| == hi - lo
    ensures forall k :: 0 <= k < hi - lo ==> Span(lo, hi)[k] == lo + k
    decreases hi - lo
  {
    if lo < hi {
      SpanIndices(lo + 1, hi);
    }
  }

  /** Running the indices of one range and then of the next is running the whole. */
  lemma {:induction false} SpanAppend(lo: int, mid: int, hi: int)
    requires lo <= mid <= hi
    ensures Span(lo, mid) + Span(mid, hi) == Span(lo, hi)
    decreases mid - lo
  {
    if lo < mid {
      SpanAppend(lo + 1, mid, hi);
      calc {
        Span(lo, mid) + Span(mid, hi);
        ([lo] + Span(lo + 1, mid)) + Span(mid, hi);
        { assert ([lo] + Span(lo + 1, mid)) + Span(mid, hi) == [lo] + (Span(lo + 1, mid) + Span(mid, hi)); }
        [lo] + Span(lo + 1, hi);
        Span(lo, hi);
      }
    }
  }

  /** The multipart form of a request, after parsing: its values, and whether its
      file map is non-nil. */
  datatype Multipart = Multipart(value: map<string, seq<string>>, hasFiles: bool)

  /** The parts of an `http.Request` the context reads, already parsed. */
  datatype Request = Request(
    httpMethod: string,
    path: string,
    query: map<string, seq<string>>,
    postForm: map<string, seq<string>>,
    multipartForm: Option<Multipart>)

  class Context {
    var req: Request
    /** The response's header map. */
    var header: map<string, string>
    var params: seq<Param>
    var handlers: seq<Handler>
    var curHandlerIndex: int
    /** The user-data store; `None` until it is first written. */
    var userData: Option<map<string, Datum>>
    /** The handler indices invoked on this context so far, in order. */
    ghost var invoked: seq<int>

    /** The zero context a pool hands out the first time. */
    constructor ()
      ensures params == [] && handlers == [] && curHandlerIndex == 0
      ensures userData == None && header == map[] && invoked == []
    {
      req := Request("", "", map[], map[], None);
      header := map[];
      params := [];
      handlers := [];
      curHandlerIndex := 0;
      userData := None;
      invoked := [];
    }

    /** `reset`: prepares a pooled context for a new request. The parameters and
        the chain are emptied and the cursor goes before the first handler; the
        user-data store is kept. */
    method Reset(r: Request, respHeader: map<string, string>)
      modifies this`req, this`header, this`params, this`handlers, this`curHandlerIndex
      ensures req == r && header == respHeader
      ensures params == [] && handlers == [] && curHandlerIndex == -1
      ensures userData == old(userData) && invoked == old(invoked)
    {
      req := r;
      header := respHeader;
      params := params[..0];
      handlers := [];
      curHandlerIndex := -1;
    }

    /** How far the cursor still has to go. */
    function Remaining(): nat
      reads this
    {
      if curHandlerIndex < |handlers| then |handlers| - curHandlerIndex else 0
    }

    /** `Next`: advances the cursor and runs every handler from there to the end of
        the chain, each once, in order, whether or not the handlers themselves
        call `Next`. The cursor only moves forward and ends past the chain. */
    method Next()
      requires curHandlerIndex >= -1
      modifies this`curHandlerIndex, this`invoked
      ensures curHandlerIndex >= old(curHandlerIndex) + 1 && curHandlerIndex >= |handlers|
      ensures invoked == old(invoked) + Span(old(curHandlerIndex) + 1, |handlers|)
      decreases Remaining(), 0
    {
      curHandlerIndex := curHandlerIndex + 1;
      while curHandlerIndex < |handlers|
        invariant old(curHandlerIndex) + 1 <= curHandlerIndex
        invariant invoked == old(invoked) + Span(old(curHandlerIndex) + 1, Lesser(curHandlerIndex, |handlers|))
        decreases |handlers| - curHandlerIndex
      {
        ghost var i := curHandlerIndex;
        Invoke();
        SpanAppend(old(curHandlerIndex) + 1, i, i + 1);
        if NextCalls(handlers[i]) > 0 {
          SpanAppend(old(curHandlerIndex) + 1, i + 1, |handlers|);
        }
        curHandlerIndex := curHandlerIndex + 1;
      }
    }

    /** `c.handlers[c.curHandlerIndex](c)`: the handler at the cursor runs; what the
        model keeps of its body is that it calls `Next` as often as it says. */
    method Invoke()
      requires 0 <= curHandlerIndex < |handlers|
      modifies this`curHandlerIndex, this`invoked
      ensures NextCalls(handlers[old(curHandlerIndex)]) == 0 ==>
        curHandlerIndex == old(curHandlerIndex) && invoked == old(invoked) + [old(curHandlerIndex)]
      ensures NextCalls(handlers[old(curHandlerIndex)]) > 0 ==>
        && curHandlerIndex >= |handlers|
        && invoked == old(invoked) + [old(curHandlerIndex)] + Span(old(curHandlerIndex) + 1, |handlers|)
      decreases Remaining(), 1
    {
      var calls := NextCalls(handlers[curHandlerIndex]);
      invoked := invoked + [curHandlerIndex];
      for k := 0 to calls
        invariant k == 0 ==> curHandlerIndex == old(curHandlerIndex) && invoked == old(invoked) + [old(curHandlerIndex)]
        invariant k > 0 ==>
          && curHandlerIndex >= |handlers|
          && invoked == old(invoked) + [old(curHandlerIndex)] + Span(old(curHandlerIndex) + 1, |handlers|)
      {
        Next();
      }
    }

    /** `Param`: the value of the first captured parameter with that name. */
    method Param(name: string) returns (value: string)
      ensures IsFirstValue(params, name, value)
    {
      value := ByName(params, name);
    }

    /** `GetQueryArray`: the query values under `key`, and whether the key is there. */
    function GetQueryArray(key: string): (r: (seq<string>, bool))
      reads this
      ensures r.1 <==> key in req.query
      ensures r.1 ==> r.0 == req.query[key]
      ensures !r.1 ==> r.0 == []
    {
      if key in req.query then (req.query[key], true) else ([], false)
    }

    /** `GetQuery`: `exist` tells whether the key is present at all; the value is
        the first one, or "" when the key is absent or has no values. */
    function GetQuery(key: string): (r: (string, bool))
      reads this
      ensures r.1 <==> key in req.query
      ensures r.1 && |req.query[key]| > 0 ==> r.0 == req.query[key][0]
      ensures !(r.1 && |req.query[key]| > 0) ==> r.0 == ""
    {
      var (arr, ok) := GetQueryArray(key);
      if ok then (if |arr| > 0 then arr[0] else "", true) else ("", false)
    }

    /** `Query`: the first query value under `key`; "" when the key is absent or
        has no values. */
    function Query(key: string): (val: string)
      reads this
      ensures key in req.query && |req.query[key]| > 0 ==> val == req.query[key][0]
      ensures !(key in req.query && |req.query[key]| > 0) ==> val == ""
    {
      GetQuery(key).0
    }

    /** `DefaultQuery`: the default is returned exactly when the query value is "". */
    function DefaultQuery(key: string, defVal: string): (val: string)
      reads this
      ensures Query(key) == "" ==> val == defVal
      ensures Query(key) != "" ==> val == Query(key)
    {
      var v := Query(key);
      if v == "" then defVal else v
    }

    /** `GetPostFormArray`: the post-form values under `key` when there are any;
        otherwise the multipart values, looked at only when the multipart form
        and its file map exist; otherwise nothing. */
    function GetPostFormArray(key: string): (r: (seq<string>, bool))
      reads this
      ensures r.1 <==> |r.0| > 0
      ensures key in req.postForm && |req.postForm[key]| > 0 ==> r.0 == req.postForm[key]
      ensures !(key in req.postForm && |req.postForm[key]| > 0) ==>
        if req.multipartForm.Some? && req.multipartForm.value.hasFiles && key in req.multipartForm.value.value
        then r.0 == req.multipartForm.value.value[key]
        else r.0 == []
    {
      if key in req.postForm && |req.postForm[key]| > 0 then (req.postForm[key], true)
      else if req.multipartForm.Some? && req.multipartForm.value.hasFiles then
        var arr := if key in req.multipartForm.value.value then req.multipartForm.value.value[key] else [];
        if |arr| > 0 then (arr, true) else ([], false)
      else ([], false)
    }

    /** `GetPostForm`: the first value `GetPostFormArray` finds, or "". */
    function GetPostForm(key: string): (r: (string, bool))
      reads this
      ensures r.1 <==> GetPostFormArray(key).1
      ensures r.1 ==> r.0 == GetPostFormArray(key).0[0]
      ensures !r.1 ==> r.0 == ""
    {
      var (arr, exist) := GetPostFormArray(key);
      if |arr| > 0 then (arr[0], exist) else ("", exist)
    }

    /** `Header`: an empty value deletes the key, any other value sets it; other
        keys keep their values. */
    method Header(key: string, value: string)
      modifies this`header
      ensures value == "" ==> key !in header
      ensures value != "" ==> key in header && header[key] == value
      ensures forall k :: k != key ==> (k in header <==> k in old(header))
      ensures forall k :: k != key && k in header ==> header[k] == old(header)[k]
    {
      if value == "" {
        header := header - {key};
      } else {
        header := header[key := value];
      }
    }

    /** `UserData`: the stored value and whether there is one; nothing before the
        store is first written. */
    function UserData(key: string): (r: Option<Datum>)
      reads this
      ensures userData.None? ==> r.None?
      ensures r.Some? <==> userData.Some? && key in userData.value
      ensures r.Some? ==> r.value == userData.value[key]
    {
      if userData.Some? && key in userData.value then Some(userData.value[key]) else None
    }

    /** `SetUserData`: allocates the store on first use and writes one key. */
    method SetUserData(key: string, val: Datum)
      modifies this`userData
      ensures userData.Some?
      ensures UserData(key) == Some(val)
      ensures forall k :: k != key ==> UserData(k) == old(UserData(k))
    {
      var m := if userData.None? then map[] else userData.value;
      userData := Some(m[key := val]);
    }
  }

  /** A chain of three handlers of which only the first calls `Next`: one top-level
      `Next` still runs the second and the third exactly once each, in order. */
  method ChainDrainExample(r: Request)
  {
    var c := new Context();
    c.Reset(r, map[]);
    c.handlers := [User(0, 1), User(1, 0), User(2, 0)];
    c.Next();
    assert Span(0, 3) == [0, 1, 2];
    assert c.invoked == [0, 1, 2];
  }

  /** After a context is reused its parameters are empty but its user data, set by
      the previous request, is still there. */
  method ReuseKeepsUserData(r1: Request, r2: Request, d: Datum)
  {
    var c := new Context();
    c.Reset(r1, map[]);
    c.params := [Param("id", "5")];
    c.SetUserData("user", d);
    c.Reset(r2, map[]);
    assert c.params == [];
    assert c.UserData("user") == Some(d);
  }
}
