/** The `;key=value` parameter lists shared by SIP URIs and Via values. */
module Params {
  import opened Text

  function PutParam(m: map<string, string>, param: string): map<string, string> {
    var kv := SplitN(param, "=", 2);
    m[ToLower(TrimSpace(kv[0])) := if |kv| == 2 then TrimSpace(kv[1]) else ""]
  }

  function PutParams(m: map<string, string>, params: seq<string>): map<string, string>
    decreases params
  {
    if params == [] then m else PutParams(PutParam(m, params[0]), params[1..])
  }

  method ParseParams(params: seq<string>) returns (m: map<string, string>)
    ensures m == PutParams(map[], params)
  {
    m := map[];
    for i := 0 to |params|
      invariant PutParams(m, params[i..]) == PutParams(map[], params)
    {
      assert params[i..][1..] == params[i + 1..];
      var kv := SplitN(params[i], "=", 2);
      var key := TrimSpace(kv[0]);
      var val := "";
      if |kv| == 2 { val := TrimSpace(kv[1]); }
      m := m[ToLower(key) := val];
    }
  }

  predicate NoAngle(s: string) { '<' !in s && '>' !in s }

  predicate Plain(s: string) { ';' !in s && NoAngle(s) }

  predicate ParamKey(k: string) { ToLower(k) == k && Trimmed(k) && '=' !in k && Plain(k) }

  predicate ParamValue(v: string) { Trimmed(v) && Plain(v) }

  function ParamText(k: string, v: string): string { if v == "" then k else k + "=" + v }

  lemma ParamParses(m: map<string, string>, k: string, v: string)
    requires ParamKey(k) && ParamValue(v)
    ensures PutParam(m, ParamText(k, v)) == m[k := v]
    ensures Plain(ParamText(k, v))
  {
    TrimmedIsFixed(k);
    TrimmedIsFixed(v);
    if v == "" { SplitOne(k, "="); } else { SplitCons(k, v, "="); }
  }

  function ParamTexts(params: map<string, string>, order: seq<string>): seq<string>
    requires forall k :: k in order ==> k in params
  {
    if order == [] then [] else [ParamText(order[0], params[order[0]])] + ParamTexts(params, order[1..])
  }

  function PrintParams(params: map<string, string>, order: seq<string>): string
    requires forall k :: k in order ==> k in params
  {
    if order == [] then ""
    else ";" + ParamText(order[0], params[order[0]]) + PrintParams(params, order[1..])
  }

  ghost predicate GoodParams(params: map<string, string>) {
    forall k :: k in params ==> ParamKey(k) && ParamValue(params[k])
  }

  lemma {:induction false} PrintParamsSnoc(params: map<string, string>, order: seq<string>, k: string)
    requires k in params && forall j :: j in order ==> j in params
    ensures PrintParams(params, order + [k]) == PrintParams(params, order) + (";" + ParamText(k, params[k]))
  {
    if order == [] {
      assert order + [k] == [k] && [k][1..] == [];
      assert PrintParams(params, [k]) == ";" + ParamText(k, params[k]) + "";
    } else {
      assert (order + [k])[1..] == order[1..] + [k];
      PrintParamsSnoc(params, order[1..], k);
      var first := ";" + ParamText(order[0], params[order[0]]);
      assert first + (PrintParams(params, order[1..]) + (";" + ParamText(k, params[k])))
          == (first + PrintParams(params, order[1..])) + (";" + ParamText(k, params[k]));
    }
  }

  function Named(params: map<string, string>, order: seq<string>): map<string, string>
    requires forall k :: k in order ==> k in params
  {
    map k | k in order :: params[k]
  }

  lemma NamedCons(params: map<string, string>, order: seq<string>, acc: map<string, string>)
    requires order != [] && forall k :: k in order ==> k in params
    ensures acc[order[0] := params[order[0]]] + Named(params, order[1..]) == acc + Named(params, order)
  {}

  lemma {:induction false} ParamsParse(params: map<string, string>, order: seq<string>, acc: map<string, string>)
    requires GoodParams(params) && forall k :: k in order ==> k in params
    ensures PutParams(acc, ParamTexts(params, order)) == acc + Named(params, order)
    decreases order
  {
    if order != [] {
      var k := order[0];
      ParamParses(acc, k, params[k]);
      ParamsParse(params, order[1..], acc[k := params[k]]);
      NamedCons(params, order, acc);
      assert ([ParamText(k, params[k])] + ParamTexts(params, order[1..]))[1..] == ParamTexts(params, order[1..]);
    }
  }

  lemma {:induction false} PrintParamsIsJoin(head: string, params: map<string, string>, order: seq<string>)
    requires forall k :: k in order ==> k in params
    ensures head + PrintParams(params, order) == Join([head] + ParamTexts(params, order), ";")
    decreases order
  {
    if order == [] {
      assert [head] + [] == [head];
    } else {
      var p := ParamText(order[0], params[order[0]]);
      PrintParamsIsJoin(p, params, order[1..]);
      assert ([head] + ParamTexts(params, order))[1..] == [p] + ParamTexts(params, order[1..]);
      assert head + (";" + p + PrintParams(params, order[1..])) == head + ";" + (p + PrintParams(params, order[1..]));
    }
  }

  lemma {:induction false} ParamTextsLack(params: map<string, string>, order: seq<string>)
    requires GoodParams(params) && forall k :: k in order ==> k in params
    ensures AllLack(ParamTexts(params, order), ';')
    ensures NoAngle(PrintParams(params, order))
  {
    if order != [] {
      ParamTextsLack(params, order[1..]);
      ParamParses(map[], order[0], params[order[0]]);
    }
  }
}
