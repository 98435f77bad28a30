/**
 The header maps the proxy reads and writes: a header is a map from a header
 name to the ordered list of its values, as in Go's `http.Header`. Header names
 are opaque strings here: no canonical form is applied to them.
 */
module Headers {

  type Header = map<string, seq<string>>

  /** Every value recorded under `name`; a name that is absent has none. */
  function Values(h: Header, name: string): seq<string>
  {
    if name in h then h[name] else []
  }

  /** `Header.Get`: the first value under `name`, or "" when there is none. */
  function Get(h: Header, name: string): (v: string)
    ensures Values(h, name) != [] ==> v == Values(h, name)[0]
    ensures Values(h, name) == [] ==> v == ""
  {
    var vs := Values(h, name);
    if vs == [] then "" else vs[0]
  }

  /** `Header.Set`: afterwards `name` has exactly the one value, and no other name changes. */
  function Set(h: Header, name: string, value: string): (h': Header)
    ensures Values(h', name) == [value]
    ensures forall n :: n != name ==> Values(h', n) == Values(h, n)
    ensures h'.Keys == h.Keys + {name}
  {
    h[name := [value]]
  }

  /** `Header.Add`: `value` goes after the values already under `name`, and no other name changes. */
  function Add(h: Header, name: string, value: string): (h': Header)
    ensures Values(h', name) == Values(h, name) + [value]
    ensures forall n :: n != name ==> Values(h', n) == Values(h, n)
    ensures h'.Keys == h.Keys + {name}
  {
    h[name := Values(h, name) + [value]]
  }

  /** The names of `h` that carry at least one value. */
  function Carried(h: Header): set<string>
  {
    set n | n in h && h[n] != []
  }

  /**
   The writer's header map once every value of `upstream` has been added to `w`
   with `Add`. A name of `upstream` whose value list is empty is never added, so
   it does not appear unless `w` already had it.
   */
  function AppendAll(w: Header, upstream: Header): (r: Header)
    ensures r.Keys == w.Keys + Carried(upstream)
    ensures forall n :: Values(r, n) == Values(w, n) + Values(upstream, n)
  {
    map n | n in w.Keys + Carried(upstream) :: Values(w, n) + Values(upstream, n)
  }

  /** Two headers that agree on their names and on every name's values are the same map. */
  lemma SameHeader(a: Header, b: Header)
    requires a.Keys == b.Keys
    requires forall n :: Values(a, n) == Values(b, n)
    ensures a == b
  {
    forall n | n in a
      ensures a[n] == b[n]
    {
      assert Values(a, n) == Values(b, n);
    }
  }

  /** The inner copy loop: each value of `values`, in order, is added under `name`. */
  method AddEach(h: Header, name: string, values: seq<string>) returns (out: Header)
    ensures Values(out, name) == Values(h, name) + values
    ensures forall n :: n != name ==> Values(out, n) == Values(h, n)
    ensures out.Keys == h.Keys + (if values == [] then {} else {name})
  {
    out := h;
    var i := 0;
    while i < |values|
      invariant 0 <= i <= |values|
      invariant Values(out, name) == Values(h, name) + values[..i]
      invariant forall n :: n != name ==> Values(out, n) == Values(h, n)
      invariant out.Keys == h.Keys + (if i == 0 then {} else {name})
    {
      assert values[..i + 1] == values[..i] + [values[i]];
      out := Add(out, name, values[i]);
      i := i + 1;
    }
    assert values[..i] == values;
  }

  /** Copying the values of one more upstream name keeps the copy loop's account of the writer's names. */
  lemma CopyStepKeys(w: Header, upstream: Header, todo: set<string>, name: string, before: Header, after: Header)
    requires name in todo && todo <= upstream.Keys
    requires before.Keys == w.Keys + (Carried(upstream) - todo)
    requires after.Keys == before.Keys + (if upstream[name] == [] then {} else {name})
    ensures after.Keys == w.Keys + (Carried(upstream) - (todo - {name}))
  {
    var added: set<string> := if upstream[name] == [] then {} else {name};
    assert added == Carried(upstream) * {name};
    assert Carried(upstream) - (todo - {name}) == (Carried(upstream) - todo) + added;
  }

  /** Copying the values of one more upstream name keeps the copy loop's account of the writer's values. */
  lemma CopyStepValues(w: Header, upstream: Header, todo: set<string>, name: string, before: Header, after: Header)
    requires name in todo && todo <= upstream.Keys
    requires forall n :: Values(before, n) == Values(w, n) + (if n in todo then [] else Values(upstream, n))
    requires Values(after, name) == Values(before, name) + upstream[name]
    requires forall n :: n != name ==> Values(after, n) == Values(before, n)
    ensures forall n :: Values(after, n) == Values(w, n) + (if n in todo - {name} then [] else Values(upstream, n))
  {
    forall n
      ensures Values(after, n) == Values(w, n) + (if n in todo - {name} then [] else Values(upstream, n))
    {
      if n == name {
        assert Values(before, n) == Values(w, n) + [];
      }
    }
  }

  /**
   The header copy loop of the proxy: for every upstream name, in whatever
   order the names are visited, every one of its values is added to the
   writer's map with `Add`. The result does not depend on the visiting order:
   each name ends with the writer's values followed by all upstream values, in
   their upstream order, and only names with at least one value are created.
   */
  method CopyHeaders(w: Header, upstream: Header) returns (out: Header)
    ensures out.Keys == w.Keys + Carried(upstream)
    ensures forall n :: Values(out, n) == Values(w, n) + Values(upstream, n)
    ensures out == AppendAll(w, upstream)
  {
    out := w;
    var todo := upstream.Keys;
    while todo != {}
      invariant todo <= upstream.Keys
      invariant out.Keys == w.Keys + (Carried(upstream) - todo)
      invariant forall n :: Values(out, n) == Values(w, n) + (if n in todo then [] else Values(upstream, n))
      decreases todo
    {
      var name :| name in todo;
      var before := out;
      out := AddEach(out, name, upstream[name]);
      CopyStepKeys(w, upstream, todo, name, before, out);
      CopyStepValues(w, upstream, todo, name, before, out);
      todo := todo - {name};
    }
    SameHeader(out, AppendAll(w, upstream));
  }
}
