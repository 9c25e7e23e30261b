/**
 * The parts of the Java platform the handler leans on: signed bytes, the
 * exceptions it can raise, the java.net URI/URL/File conversions (an abstract
 * record of functions, since their parsing rules are not part of this model),
 * and the enumeration of a HashMap's key and value views.
 */
module Java {
  import opened Wrappers

  /** A Java `byte`: signed, eight bits. */
  newtype int8 = x: int | -128 <= x < 128

  /** The exceptions the modelled code can raise or let escape. */
  datatype Fault =
    | URISyntax             // java.net.URISyntaxException from `new URI(..)`
    | MalformedURL          // java.net.MalformedURLException from `URI.toURL()`
    | IllegalArgument       // IllegalArgumentException from `URI.create(..)` or `new File(URI)`
    | IndexOutOfBounds      // IndexOutOfBoundsException from `List.get(0)` or `ByteBuffer.wrap`
    | UnsupportedOperation  // UnsupportedOperationException from the deliberate stubs
    | StackOverflow         // StackOverflowError once the recursion exhausts the stack

  /**
   * The java.net library as seen by the handler.
   * - `parses(s)`: `new URI(s)` / `URI.create(s)` accepts `s`.
   * - `toUrl(s)`: for a parsed `s`, `URI.toURL().toString()`; `None` when
   *   `toURL` throws MalformedURLException.
   * - `filePath(s)`: for a parsed `s`, the path of `new File(URI)`; `None`
   *   when that constructor throws IllegalArgumentException.
   */
  datatype UriLibrary = UriLibrary(
    parses: string -> bool,
    toUrl: string -> Option<string>,
    filePath: string -> Option<string>)

  /** `HashMap.get`: the mapped value, or `None` (Java `null`) for a missing key. */
  function Get<V>(m: map<string, V>, key: string): (r: Option<V>)
    ensures r.Some? <==> key in m
    ensures r.Some? ==> r.value == m[key]
  {
    if key in m then Some(m[key]) else None
  }

  ghost predicate Distinct<T>(s: seq<T>)
  {
    forall i, j :: 0 <= i < j < |s| ==> s[i] != s[j]
  }

  /**
   * `Collections.enumeration(m.keySet())`: every key exactly once, in the
   * map's unspecified iteration order.
   */
  method EnumerateKeys<V>(m: map<string, V>) returns (keys: seq<string>)
    ensures Distinct(keys)
    ensures forall k :: k in keys <==> k in m
    ensures |keys| == |m|
  {
    keys := [];
    var rest := m.Keys;
    while rest != {}
      invariant rest <= m.Keys
      invariant Distinct(keys)
      invariant forall k :: k in keys <==> k in m && k !in rest
      decreases rest
    {
      var k :| k in rest;
      keys := keys + [k];
      rest := rest - {k};
    }
    assert (set k | k in keys) == m.Keys;
    DistinctCardinality(keys);
  }

  /** A sequence without repetitions has as many distinct elements as it is long. */
  lemma {:induction false} DistinctCardinality<T>(s: seq<T>)
    requires Distinct(s)
    ensures |set x | x in s| == |s|
  {
    if s != [] {
      var init := s[..|s| - 1];
      var last := s[|s| - 1];
      assert Distinct(init);
      DistinctCardinality(init);
      assert (set x | x in s) == (set x | x in init) + {last};
      assert last !in (set x | x in init);
    }
  }

  /**
   * `vs` lists the values of `m` in the iteration order `keys`: one entry
   * per key, duplicates of equal values included.
   */
  ghost predicate EnumeratesValues<V>(m: map<string, V>, vs: seq<V>, keys: seq<string>)
  {
    && |vs| == |keys|
    && Distinct(keys)
    && (forall k :: k in keys <==> k in m)
    && (forall i :: 0 <= i < |keys| ==> keys[i] in m && vs[i] == m[keys[i]])
  }

  /**
   * `Collections.enumeration(m.values())`: the value of every key, walked in
   * the same unspecified order as the key view; `keys` records that order.
   */
  method EnumerateValues<V(==)>(m: map<string, V>) returns (vs: seq<V>, ghost keys: seq<string>)
    ensures EnumeratesValues(m, vs, keys)
    ensures |vs| == |m|
    ensures forall v :: v in vs <==> v in m.Values
  {
    var order := EnumerateKeys(m);
    keys := order;
    vs := [];
    var i := 0;
    while i < |order|
      invariant 0 <= i <= |order|
      invariant |vs| == i
      invariant forall j :: 0 <= j < i ==> vs[j] == m[order[j]]
    {
      vs := vs + [m[order[i]]];
      i := i + 1;
    }
    forall v | v in m.Values
      ensures v in vs
    {
      var k :| k in m && m[k] == v;
      var j :| 0 <= j < |order| && order[j] == k;
      assert vs[j] == v;
    }
  }
}
