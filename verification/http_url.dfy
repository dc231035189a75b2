/**
 * OkHttp's `HttpUrl` as far as the sources use it: a URL is its text up to the
 * query and an ordered list of query parameters. `addQueryParameter` appends,
 * `setQueryParameter` drops every parameter of that name and then appends,
 * `removeAllQueryParameters` drops, and `queryParameter` reads the first value.
 * A parameter whose value is null is written without `=`.
 */
module HttpUrl {
  import opened Wrappers

  /** A query parameter: its name and its (nullable) value. */
  type Param = (string, Option<string>)

  datatype Url = Url(path: string, query: seq<Param>)

  /** `addQueryParameter(name, value)`. */
  function AddQuery(u: Url, name: string, value: Option<string>): Url {
    Url(u.path, u.query + [(name, value)])
  }

  /** The parameters other than those called `name`, in their order. */
  function RemoveAll(q: seq<Param>, name: string): (r: seq<Param>)
    ensures forall p :: p in r <==> p in q && p.0 != name
    ensures |r| <= |q|
  {
    if q == [] then []
    else (if q[0].0 == name then [] else [q[0]]) + RemoveAll(q[1..], name)
  }

  /** `removeAllQueryParameters(name)`. */
  function RemoveQuery(u: Url, name: string): Url {
    Url(u.path, RemoveAll(u.query, name))
  }

  /** `setQueryParameter(name, value)`: the old values go, the new one comes last. */
  function SetQuery(u: Url, name: string, value: Option<string>): Url {
    Url(u.path, RemoveAll(u.query, name) + [(name, value)])
  }

  /** `queryParameter(name)`: the value of the first parameter called `name`, or null. */
  function QueryValue(q: seq<Param>, name: string): (r: Option<string>)
    ensures (forall i :: 0 <= i < |q| ==> q[i].0 != name) ==> r.None?
    ensures r.Some? ==> (name, r) in q
  {
    if q == [] then None
    else if q[0].0 == name then q[0].1
    else QueryValue(q[1..], name)
  }

  /** The first parameter called `name` decides what `queryParameter(name)` reads. */
  lemma {:induction false} QueryValueAt(q: seq<Param>, name: string, i: nat)
    requires i < |q| && q[i].0 == name
    requires forall j :: 0 <= j < i ==> q[j].0 != name
    ensures QueryValue(q, name) == q[i].1
  {
    if i > 0 {
      QueryValueAt(q[1..], name, i - 1);
    }
  }

  /** A name first set inside `head` reads the same whatever follows. */
  lemma QueryValueInHead(head: seq<Param>, tail: seq<Param>, name: string, i: nat)
    requires i < |head| && head[i].0 == name
    requires forall j :: 0 <= j < i ==> head[j].0 != name
    ensures QueryValue(head + tail, name) == head[i].1
  {
    QueryValueAt(head + tail, name, i);
  }

  /** Parameters of other names in front do not change what `queryParameter(name)` reads. */
  lemma {:induction false} QueryValueSkip(a: seq<Param>, b: seq<Param>, name: string)
    requires forall j :: 0 <= j < |a| ==> a[j].0 != name
    ensures QueryValue(a + b, name) == QueryValue(b, name)
  {
    if a != [] {
      var ab := a + b;
      assert ab[0] == a[0] && ab[1..] == a[1..] + b;
      assert forall j :: 0 <= j < |a[1..]| ==> a[1..][j] == a[j + 1];
      QueryValueSkip(a[1..], b, name);
      assert QueryValue(ab, name) == QueryValue(ab[1..], name);
    } else {
      assert a + b == b;
    }
  }

  /** `name=value`, or just `name` for a null value. */
  function EncodeParam(p: Param): string {
    p.0 + match p.1 case Some(v) => "=" + v case None => ""
  }

  /** The parameters joined with `&`. */
  function QueryString(q: seq<Param>): string {
    if q == [] then ""
    else if |q| == 1 then EncodeParam(q[0])
    else EncodeParam(q[0]) + "&" + QueryString(q[1..])
  }

  /** `toString()`: the path, then `?` and the parameters when there are any. */
  function Render(u: Url): string {
    if u.query == [] then u.path else u.path + "?" + QueryString(u.query)
  }

  /** The rendered URL starts with its path. */
  lemma RenderStartsWithPath(u: Url)
    ensures u.path <= Render(u)
  {
    if u.query != [] {
      assert Render(u) == u.path + ("?" + QueryString(u.query));
    }
  }

  // ---------------------------------------------------------------------------
  // Reading back what was written

  /** Appending a parameter does not change the first value of any name already present. */
  lemma {:induction false} QueryValueAppend(q: seq<Param>, p: Param, name: string)
    ensures QueryValue(q + [p], name) == (if exists i :: 0 <= i < |q| && q[i].0 == name then QueryValue(q, name)
                                         else if p.0 == name then p.1 else None)
  {
    if q != [] {
      assert (q + [p])[1..] == q[1..] + [p];
      QueryValueAppend(q[1..], p, name);
      if q[0].0 != name {
        assert (exists i :: 0 <= i < |q| && q[i].0 == name) <==> (exists i :: 0 <= i < |q[1..]| && q[1..][i].0 == name) by {
          forall i | 0 <= i < |q| && q[i].0 == name ensures 0 <= i - 1 < |q[1..]| && q[1..][i - 1].0 == name {}
          forall i | 0 <= i < |q[1..]| && q[1..][i].0 == name ensures q[i + 1].0 == name {}
        }
      }
    }
  }

  /** Dropping the parameters of one name leaves the first value of every other name alone. */
  lemma {:induction false} QueryValueRemoveOther(q: seq<Param>, removed: string, name: string)
    requires removed != name
    ensures QueryValue(RemoveAll(q, removed), name) == QueryValue(q, name)
  {
    if q != [] {
      var rest := RemoveAll(q[1..], removed);
      QueryValueRemoveOther(q[1..], removed, name);
      if q[0].0 == removed {
        assert RemoveAll(q, removed) == rest;
      } else {
        var r := [q[0]] + rest;
        assert RemoveAll(q, removed) == r;
        assert r[0] == q[0] && r[1..] == rest;
      }
    }
  }

  /** After `setQueryParameter(name, v)`, `queryParameter(name)` reads `v`. */
  lemma SetThenRead(u: Url, name: string, value: Option<string>)
    ensures QueryValue(SetQuery(u, name, value).query, name) == value
  {
    var rest := RemoveAll(u.query, name);
    QueryValueAppend(rest, (name, value), name);
    assert !exists i :: 0 <= i < |rest| && rest[i].0 == name by {
      forall i | 0 <= i < |rest| ensures rest[i].0 != name {
        assert rest[i] in rest;
      }
    }
  }

  /** `setQueryParameter` on one name does not change what another name reads. */
  lemma SetKeepsOther(u: Url, setName: string, value: Option<string>, name: string)
    requires setName != name
    ensures QueryValue(SetQuery(u, setName, value).query, name) == QueryValue(u.query, name)
  {
    var rest := RemoveAll(u.query, setName);
    QueryValueAppend(rest, (setName, value), name);
    QueryValueRemoveOther(u.query, setName, name);
    if !exists i :: 0 <= i < |rest| && rest[i].0 == name {
      assert QueryValue(rest, name) == None;
    }
  }

  /** After `removeAllQueryParameters(name)`, `queryParameter(name)` reads null. */
  lemma RemoveThenRead(u: Url, name: string)
    ensures QueryValue(RemoveQuery(u, name).query, name) == None
  {
    var rest := RemoveAll(u.query, name);
    forall i | 0 <= i < |rest| ensures rest[i].0 != name {
      assert rest[i] in rest;
    }
  }

  /** `removeAllQueryParameters` on one name does not change what another name reads. */
  lemma RemoveKeepsOther(u: Url, removed: string, name: string)
    requires removed != name
    ensures QueryValue(RemoveQuery(u, removed).query, name) == QueryValue(u.query, name)
  {
    QueryValueRemoveOther(u.query, removed, name);
  }
}
