/**
 * A URL query as the tracker builds it: an ordered list of key/value items.
 * Adding an item appends it at the end; looking a key up yields the value of
 * the first item carrying that key.
 */
module UrlQuery {
  import opened Wrappers

  type Item = (string, string)
  type Query = seq<Item>

  /** True when some item of `q` carries `key`. */
  predicate HasKey(q: Query, key: string) {
    exists i :: 0 <= i < |q| && q[i].0 == key
  }

  /** Says that `v` is what looking `key` up in `q` must give: some value
      exactly when the key is present, and then the value of its first item. */
  predicate IsFirstValue(q: Query, key: string, v: Option<string>) {
    (v.Some? <==> HasKey(q, key)) &&
    (v.Some? ==> exists i :: 0 <= i < |q| && q[i] == (key, v.value) &&
                             forall j :: 0 <= j < i ==> q[j].0 != key)
  }

  /** The value of the first item of `q` whose key is `key`, if there is one. */
  function QueryItemValue(q: Query, key: string): Option<string> {
    if q == [] then None
    else if q[0].0 == key then Some(q[0].1)
    else QueryItemValue(q[1..], key)
  }

  /** Lookup finds a value exactly when the key is present, and then it is
      the value of the first item with that key. */
  lemma {:induction false} QueryItemValueIsFirst(q: Query, key: string)
    ensures IsFirstValue(q, key, QueryItemValue(q, key))
  {
    if q != [] && q[0].0 != key {
      QueryItemValueIsFirst(q[1..], key);
      FirstValueSkip(q, key, QueryItemValue(q[1..], key));
    }
  }

  /** Looking a key up past a first item with another key. */
  lemma FirstValueSkip(q: Query, key: string, v: Option<string>)
    requires q != [] && q[0].0 != key
    requires IsFirstValue(q[1..], key, v)
    ensures IsFirstValue(q, key, v)
  {
  }

  /** Appending items never changes the value of a key already present, and
      a key absent from the front is looked up in what was appended. */
  lemma {:induction false} QueryItemValueAppend(a: Query, b: Query, key: string)
    ensures QueryItemValue(a + b, key) ==
              if HasKey(a, key) then QueryItemValue(a, key) else QueryItemValue(b, key)
  {
    if a == [] {
      assert a + b == b;
    } else if a[0].0 == key {
      assert (a + b)[0] == a[0];
    } else {
      assert (a + b)[1..] == a[1..] + b;
      QueryItemValueAppend(a[1..], b, key);
      assert HasKey(a, key) <==> HasKey(a[1..], key) by {
        if HasKey(a, key) {
          var i :| 0 <= i < |a| && a[i].0 == key;
          assert a[1..][i - 1].0 == key;
        }
        if HasKey(a[1..], key) {
          var i :| 0 <= i < |a[1..]| && a[1..][i].0 == key;
          assert a[i + 1].0 == key;
        }
      }
    }
  }
}
