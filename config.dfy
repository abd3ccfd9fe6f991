/**
 * Model of `CordappConfigWithFallback`: a configuration that answers every lookup from
 * the CorDapp configuration (the primary) at `pathPrefix + path`, and hands the original,
 * unprefixed path to a fallback configuration whenever the primary has nothing there.
 *
 * The primary is a flat map from full dotted keys to values, and "exists" means "is a key".
 * A fallback is itself a configuration: either a plain source (a flat map standing in for
 * the microkernel's own configuration) or another resolver, so `Config` is recursive.
 */
module Config {

  /** A raw value held by a configuration source. `Node` marks an object (a subtree root). */
  datatype Value =
    | Str(s: string)
    | Num(n: int)
    | Dec(d: real)
    | Flag(b: bool)
    | Node

  datatype Duration = Duration(nanos: int)

  datatype ConfigError =
    | Missing(path: string)        // the path exists in no source
    | WrongType(expected: string)  // the value at the path is not of the requested kind
    | BadFormat(raw: string)       // only ever returned by a parse function, which the model leaves open

  datatype Result<T> = Ok(value: T) | Err(error: ConfigError)

  const MinInt: int := -0x8000_0000
  const MaxInt: int := 0x7fff_ffff
  const MinLong: int := -0x8000_0000_0000_0000
  const MaxLong: int := 0x7fff_ffff_ffff_ffff

  /** Kotlin's `Long`, the type `parseBytesSize` returns. */
  newtype Long = x: int | MinLong <= x <= MaxLong

  /** A configuration: a plain source, or the CorDapp config resolved over a fallback. */
  datatype Config =
    | Source(entries: map<string, Value>)
    | WithFallback(cordappConfig: map<string, Value>, fallback: Config, pathPrefix: string)

  /** The resolver as constructed with the default prefix: the primary is read unprefixed and
      overrides the fallback's whole view. */
  function TopLevel(cordappConfig: map<string, Value>, fallback: Config): (c: Config)
    ensures Flatten(c) == Flatten(fallback) + cordappConfig
  {
    StripEmpty(cordappConfig);
    WithFallback(cordappConfig, fallback, "")
  }

  // ---------------------------------------------------------------------------
  // Flat maps and their subtrees

  /** The entries of `m` whose key starts with `q`, re-keyed relative to `q`. */
  function Strip(m: map<string, Value>, q: string): (r: map<string, Value>)
    ensures forall k {:trigger k in r} :: k in r <==> q + k in m
    ensures forall k :: k in r ==> r[k] == m[q + k]
  {
    var keys := set key | key in m && q <= key :: key[|q|..];
    assert forall k :: q + k in m ==> q <= q + k && (q + k)[|q|..] == k;
    map k | k in keys && q + k in m :: m[q + k]
  }

  /** No key of `m` lies strictly below the subtree root written `q` (whose last letter is the dot). */
  predicate NoKeyBelow(m: map<string, Value>, q: string)
  {
    forall k :: k in m ==> !(q <= k)
  }

  lemma StripEmpty(m: map<string, Value>)
    ensures Strip(m, "") == m
  {
    forall k ensures k in Strip(m, "") <==> k in m {
      assert "" + k == k;
    }
    assert Strip(m, "").Keys == m.Keys;
  }

  lemma StripUnion(a: map<string, Value>, b: map<string, Value>, q: string)
    ensures Strip(a + b, q) == Strip(a, q) + Strip(b, q)
  {
  }

  lemma UnionEmpty(m: map<string, Value>)
    ensures m + map[] == m
  {
  }

  lemma Assoc(a: string, b: string, c: string)
    ensures a + (b + c) == (a + b) + c
  {
  }

  lemma StripStripAt(m: map<string, Value>, pre: string, q: string, k: string)
    ensures k in Strip(Strip(m, pre), q) <==> k in Strip(m, pre + q)
    ensures k in Strip(m, pre + q) ==> Strip(Strip(m, pre), q)[k] == Strip(m, pre + q)[k]
  {
    Assoc(pre, q, k);
  }

  lemma StripStrip(m: map<string, Value>, pre: string, q: string)
    ensures Strip(Strip(m, pre), q) == Strip(m, pre + q)
  {
    var l, r := Strip(Strip(m, pre), q), Strip(m, pre + q);
    forall k ensures (k in l <==> k in r) && (k in r ==> l[k] == r[k]) {
      StripStripAt(m, pre, q, k);
    }
    assert l.Keys == r.Keys;
  }

  lemma StripNothingBelow(m: map<string, Value>, pre: string, q: string)
    requires NoKeyBelow(m, pre + q)
    ensures Strip(Strip(m, pre), q) == map[]
  {
    StripStrip(m, pre, q);
    forall k ensures k !in Strip(m, pre + q) {
      assert pre + q <= (pre + q) + k;
    }
    assert Strip(m, pre + q).Keys == {};
  }

  // ---------------------------------------------------------------------------
  // The effective view: the reference the accessors are proved against

  /**
   * The flat map a configuration presents: a plain source is its own map; a resolver
   * presents its fallback's view, overridden by the primary's entries below its prefix.
   */
  function Flatten(c: Config): map<string, Value>
  {
    match c
    case Source(m) => m
    case WithFallback(primary, fallback, prefix) => Flatten(fallback) + Strip(primary, prefix)
  }

  /** Reading one flat map: the value at `path` through `read`, or the missing-path error. */
  function Lookup<T>(m: map<string, Value>, path: string, read: Value -> Result<T>): Result<T>
  {
    if path in m then read(m[path]) else Err(Missing(path))
  }

  // ---------------------------------------------------------------------------
  // The accessors

  /** `pathExists`: the primary has `pathPrefix + path`, or else the fallback has `path`. */
  function PathExists(c: Config, path: string): (r: bool)
    ensures r <==> path in Flatten(c)
  {
    match c
    case Source(m) => path in m
    case WithFallback(primary, fallback, prefix) =>
      if prefix + path in primary then true else PathExists(fallback, path)
  }

  /**
   * The shared shape of every scalar getter: read the primary at `pathPrefix + path` when it
   * has that key, otherwise ask the fallback for the unprefixed `path`.
   */
  function Get<T>(c: Config, path: string, read: Value -> Result<T>): (r: Result<T>)
    ensures r == Lookup(Flatten(c), path, read)
  {
    match c
    case Source(m) => Lookup(m, path, read)
    case WithFallback(primary, fallback, prefix) =>
      if prefix + path in primary then read(primary[prefix + path]) else Get(fallback, path, read)
  }

  function AsString(v: Value): Result<string>
  {
    if v.Str? then Ok(v.s) else Err(WrongType("STRING"))
  }

  function AsInt(v: Value): Result<int>
  {
    if v.Num? && MinInt <= v.n <= MaxInt then Ok(v.n) else Err(WrongType("NUMBER(int)"))
  }

  function AsLong(v: Value): Result<int>
  {
    if v.Num? && MinLong <= v.n <= MaxLong then Ok(v.n) else Err(WrongType("NUMBER(long)"))
  }

  function AsDouble(v: Value): Result<real>
  {
    match v
    case Num(n) => Ok(n as real)
    case Dec(d) => Ok(d)
    case _ => Err(WrongType("NUMBER"))
  }

  function AsBoolean(v: Value): Result<bool>
  {
    if v.Flag? then Ok(v.b) else Err(WrongType("BOOLEAN"))
  }

  /** A string value handed to a parse function (used for durations and byte sizes). */
  function ParseString<T>(v: Value, parse: string -> Result<T>): Result<T>
  {
    match AsString(v)
    case Ok(s) => parse(s)
    case Err(e) => Err(e)
  }

  function GetString(c: Config, path: string): (r: Result<string>)
    ensures r.Ok? <==> path in Flatten(c) && Flatten(c)[path].Str?
    ensures r.Ok? ==> r.value == Flatten(c)[path].s
    ensures path !in Flatten(c) ==> r == Err(Missing(path))
  {
    Get(c, path, AsString)
  }

  function GetInt(c: Config, path: string): (r: Result<int>)
    ensures r.Ok? <==> path in Flatten(c) && Flatten(c)[path].Num? && MinInt <= Flatten(c)[path].n <= MaxInt
    ensures r.Ok? ==> r.value == Flatten(c)[path].n && MinInt <= r.value <= MaxInt
    ensures path !in Flatten(c) ==> r == Err(Missing(path))
  {
    Get(c, path, AsInt)
  }

  function GetLong(c: Config, path: string): (r: Result<int>)
    ensures r.Ok? <==> path in Flatten(c) && Flatten(c)[path].Num? && MinLong <= Flatten(c)[path].n <= MaxLong
    ensures r.Ok? ==> r.value == Flatten(c)[path].n && MinLong <= r.value <= MaxLong
    ensures path !in Flatten(c) ==> r == Err(Missing(path))
  {
    Get(c, path, AsLong)
  }

  function GetDouble(c: Config, path: string): (r: Result<real>)
    ensures r.Ok? <==> path in Flatten(c) && (Flatten(c)[path].Num? || Flatten(c)[path].Dec?)
    ensures r.Ok? && Flatten(c)[path].Dec? ==> r.value == Flatten(c)[path].d
    ensures r.Ok? && Flatten(c)[path].Num? ==> r.value == Flatten(c)[path].n as real
    ensures path !in Flatten(c) ==> r == Err(Missing(path))
  {
    Get(c, path, AsDouble)
  }

  function GetBoolean(c: Config, path: string): (r: Result<bool>)
    ensures r.Ok? <==> path in Flatten(c) && Flatten(c)[path].Flag?
    ensures r.Ok? ==> r.value == Flatten(c)[path].b
    ensures path !in Flatten(c) ==> r == Err(Missing(path))
  {
    Get(c, path, AsBoolean)
  }

  /** `getDuration`: the parse function (left open) applied to the string value. */
  function GetDuration(c: Config, path: string, parseDuration: string -> Result<Duration>): (r: Result<Duration>)
    ensures path in Flatten(c) && Flatten(c)[path].Str? ==> r == parseDuration(Flatten(c)[path].s)
    ensures path in Flatten(c) && !Flatten(c)[path].Str? ==> r == Err(WrongType("STRING"))
    ensures path !in Flatten(c) ==> r == Err(Missing(path))
  {
    Get(c, path, (v: Value) => ParseString(v, parseDuration))
  }

  /** `getBytesSize`: the parse function (left open) applied to the string value. */
  function GetBytesSize(c: Config, path: string, parseBytesSize: string -> Result<Long>): (r: Result<Long>)
    ensures path in Flatten(c) && Flatten(c)[path].Str? ==> r == parseBytesSize(Flatten(c)[path].s)
    ensures path in Flatten(c) && !Flatten(c)[path].Str? ==> r == Err(WrongType("STRING"))
    ensures path !in Flatten(c) ==> r == Err(Missing(path))
  {
    Get(c, path, (v: Value) => ParseString(v, parseBytesSize))
  }

  // ---------------------------------------------------------------------------
  // Subtrees

  /**
   * Every fallback level either has the subtree root `pathPrefix + path` in its primary, or
   * has no primary key below it at all: the condition under which a subtree loses no override.
   */
  predicate SubtreeRootsPresent(c: Config, path: string)
  {
    match c
    case Source(_) => true
    case WithFallback(primary, fallback, prefix) =>
      (prefix + path in primary || NoKeyBelow(primary, prefix + path + "."))
      && SubtreeRootsPresent(fallback, path)
  }

  /**
   * `getSubtree` with the fallback descended by the unprefixed `path` in both branches
   * (the source passes the prefixed path in the primary branch; see GetSubtreeAsWritten).
   * Where the primary has the subtree root, the result keeps the same primary with the prefix
   * extended by `path + "."`; otherwise the whole subtree is the fallback's.
   */
  function GetSubtree(c: Config, path: string): (r: Config)
    ensures c.Source? ==> r.Source? && Flatten(r) == Strip(Flatten(c), path + ".")
    ensures c.WithFallback? && c.pathPrefix + path in c.cordappConfig ==>
      r.WithFallback? && r.cordappConfig == c.cordappConfig && r.pathPrefix == c.pathPrefix + path + "."
    ensures c.WithFallback? && c.pathPrefix + path !in c.cordappConfig ==> r == GetSubtree(c.fallback, path)
  {
    match c
    case Source(m) => Source(Strip(m, path + "."))
    case WithFallback(primary, fallback, prefix) =>
      var prefixedPath := prefix + path;
      if prefixedPath in primary then
        WithFallback(primary, GetSubtree(fallback, path), prefixedPath + ".")
      else
        GetSubtree(fallback, path)
  }

  /**
   * When no override is lost on the way down, a subtree presents exactly the part of the
   * whole view that lies below `path`.
   */
  lemma {:induction false} SubtreeView(c: Config, path: string)
    requires SubtreeRootsPresent(c, path)
    ensures Flatten(GetSubtree(c, path)) == Strip(Flatten(c), path + ".")
  {
    match c
    case Source(m) =>
    case WithFallback(primary, fallback, prefix) =>
      var q := path + ".";
      var below := Strip(Strip(primary, prefix), q);
      SubtreeView(fallback, path);
      StripUnion(Flatten(fallback), Strip(primary, prefix), q);
      assert Strip(Flatten(c), q) == Strip(Flatten(fallback), q) + below;
      Assoc(prefix, path, ".");
      if prefix + path in primary {
        StripStrip(primary, prefix, q);
        calc {
          Flatten(GetSubtree(c, path));
          Flatten(GetSubtree(fallback, path)) + Strip(primary, prefix + path + ".");
          Strip(Flatten(fallback), q) + below;
        }
      } else {
        StripNothingBelow(primary, prefix, q);
        UnionEmpty(Strip(Flatten(fallback), q));
        calc {
          Flatten(GetSubtree(c, path));
          Flatten(GetSubtree(fallback, path));
          Strip(Flatten(fallback), q) + map[];
          Strip(Flatten(fallback), q) + below;
        }
      }
  }

  /** `getSubtree` exactly as the source writes it: the primary branch descends the
      fallback by the prefixed path. */
  function GetSubtreeAsWritten(c: Config, path: string): (r: Config)
    ensures c.Source? ==> r == GetSubtree(c, path)
    ensures c.WithFallback? && c.pathPrefix + path in c.cordappConfig ==>
      r.WithFallback? && r.cordappConfig == c.cordappConfig && r.pathPrefix == c.pathPrefix + path + "."
    ensures c.WithFallback? && c.pathPrefix + path !in c.cordappConfig ==> r == GetSubtreeAsWritten(c.fallback, path)
  {
    match c
    case Source(m) => Source(Strip(m, path + "."))
    case WithFallback(primary, fallback, prefix) =>
      var prefixedPath := prefix + path;
      if prefixedPath in primary then
        WithFallback(primary, GetSubtreeAsWritten(fallback, prefixedPath), prefixedPath + ".")
      else
        GetSubtreeAsWritten(fallback, path)
  }

  // ---------------------------------------------------------------------------
  // Properties

  /** The primary wins: when it has `pathPrefix + path`, the path exists, every getter reads
      exactly that key, and which fallback sits behind it makes no difference. */
  lemma PrimaryWins<T>(primary: map<string, Value>, fallback: Config, other: Config, prefix: string,
                       path: string, read: Value -> Result<T>)
    requires prefix + path in primary
    ensures PathExists(WithFallback(primary, fallback, prefix), path)
    ensures Get(WithFallback(primary, fallback, prefix), path, read) == read(primary[prefix + path])
    ensures Get(WithFallback(primary, fallback, prefix), path, read) == Get(WithFallback(primary, other, prefix), path, read)
  {
  }

  /** Delegation: when the primary lacks `pathPrefix + path`, every accessor answers exactly as
      the fallback does for the unprefixed `path`. */
  lemma FallbackAnswersUnprefixed<T>(primary: map<string, Value>, fallback: Config, prefix: string,
                                     path: string, read: Value -> Result<T>)
    requires prefix + path !in primary
    ensures PathExists(WithFallback(primary, fallback, prefix), path) == PathExists(fallback, path)
    ensures Get(WithFallback(primary, fallback, prefix), path, read) == Get(fallback, path, read)
  {
  }

  /** A path exists exactly when a lookup there does not fail for being missing. */
  lemma ExistsIffNotMissing(c: Config, path: string)
    ensures PathExists(c, path) <==> !(GetString(c, path) == Err(Missing(path)))
  {
  }

  /** Lookup composition: below a subtree the primary has, a getter reads the primary at the
      joined key `s + "." + q` — for the source's `getSubtree` and for the corrected one. */
  lemma SubtreeReadsJoinedKey<T>(primary: map<string, Value>, fallback: Config, s: string, q: string,
                                 read: Value -> Result<T>)
    requires s in primary && s + "." + q in primary
    ensures Get(GetSubtree(TopLevel(primary, fallback), s), q, read) == read(primary[s + "." + q])
    ensures Get(GetSubtreeAsWritten(TopLevel(primary, fallback), s), q, read) == read(primary[s + "." + q])
  {
    assert "" + s == s;
    assert (s + ".") + q == s + "." + q;
  }

  /** All-or-nothing at the subtree root: a primary without the root itself has no say below
      it, even when it holds a deeper key. */
  lemma SubtreeWithoutRootIgnoresPrimary()
    ensures var primary := map["a.b.c" := Str("p")];
            var fallback := Source(map["a.b.c" := Str("f")]);
            var r := TopLevel(primary, fallback);
            GetString(r, "a.b.c") == Ok("p")
            && GetString(GetSubtree(r, "a.b"), "c") == Ok("f")
            && GetString(GetSubtreeAsWritten(r, "a.b"), "c") == Ok("f")
  {
    var primary := map["a.b.c" := Str("p")];
    var m := map["a.b.c" := Str("f")];
    assert "" + "a.b.c" == "a.b.c";
    assert "" + "a.b" !in primary;
    assert "a.b" + "." + "c" == "a.b.c";
    assert "c" in Strip(m, "a.b" + ".");
  }

  /** At the top level over a plain source the source's `getSubtree` agrees with the corrected one. */
  lemma AsWrittenAgreesAtTopLevel(primary: map<string, Value>, m: map<string, Value>, path: string)
    ensures GetSubtreeAsWritten(TopLevel(primary, Source(m)), path) == GetSubtree(TopLevel(primary, Source(m)), path)
  {
    assert "" + path == path;
  }

  /**
   * Which part of a plain fallback a subtree keeps, at any prefix, when the primary has the
   * subtree root: the corrected descent keeps the fallback below `path.`, the source's
   * descent the fallback below `pathPrefix + path + "."`. The two agree only at the empty prefix.
   */
  lemma SubtreeFallbackAtAnyPrefix(primary: map<string, Value>, m: map<string, Value>, prefix: string, path: string)
    requires prefix + path in primary
    ensures var c := WithFallback(primary, Source(m), prefix);
            && Flatten(GetSubtree(c, path).fallback) == Strip(m, path + ".")
            && Flatten(GetSubtreeAsWritten(c, path).fallback) == Strip(m, prefix + path + ".")
  {
  }

  /**
   * Two levels down from the top, through subtrees "a" and then "a.b" that the primary has:
   * the corrected descent reads the plain fallback below "a.b", the source's descent below
   * the doubled path "a.a.b".
   */
  lemma TwoLevelDescent(primary: map<string, Value>, m: map<string, Value>, a: string, b: string)
    requires a in primary && a + "." + b in primary
    ensures GetSubtree(GetSubtree(TopLevel(primary, Source(m)), a), b)
         == WithFallback(primary, Source(Strip(m, a + "." + b + ".")), a + "." + b + ".")
    ensures GetSubtreeAsWritten(GetSubtreeAsWritten(TopLevel(primary, Source(m)), a), b)
         == WithFallback(primary, Source(Strip(m, a + "." + (a + "." + b) + ".")), a + "." + b + ".")
  {
    assert "" + a == a;
    var below := Strip(m, a + ".");
    assert GetSubtree(TopLevel(primary, Source(m)), a) == WithFallback(primary, Source(below), a + ".");
    assert GetSubtreeAsWritten(TopLevel(primary, Source(m)), a) == WithFallback(primary, Source(below), a + ".");
    StripStrip(m, a + ".", b + ".");
    Assoc(a + ".", b, ".");
    StripStrip(m, a + ".", a + "." + b + ".");
    Assoc(a + ".", a + "." + b, ".");
  }

  /**
   * A concrete input on which the source's `getSubtree` goes wrong one level down: the
   * fallback's value at "a.b.x", which the whole view presents, is missing below "a" and "b".
   */
  lemma NestedSubtreeMisreadsFallback()
    ensures var primary := map["a" := Node, "a.b" := Node];
            var r := TopLevel(primary, Source(map["a.b.x" := Str("f")]));
            GetString(r, "a.b.x") == Ok("f")
            && GetString(GetSubtree(GetSubtree(r, "a"), "b"), "x") == Ok("f")
            && GetString(GetSubtreeAsWritten(GetSubtreeAsWritten(r, "a"), "b"), "x") == Err(Missing("x"))
  {
    var primary := map["a" := Node, "a.b" := Node];
    var m := map["a.b.x" := Str("f")];
    SampleKeys();
    assert "x" in Strip(m, "a.b.");
    assert "x" !in Strip(m, "a.a.b.");
    TwoLevelDescent(primary, m, "a", "b");
  }

  /** The joined keys of the sample above. */
  lemma SampleKeys()
    ensures "a" + "." + "b" == "a.b" && "" + "a.b.x" == "a.b.x"
    ensures "a" + "." + "b" + "." == "a.b." && "a.b." + "x" == "a.b.x"
    ensures "a" + "." + ("a" + "." + "b") + "." == "a.a.b." && "a.a.b." + "x" != "a.b.x"
    ensures "a.b." + "x" != "a" && "a.b." + "x" != "a.b"
  {
  }
}
