/** The symbol table of chimera.py's `SymbolicProcessor`: after the lexicon
    file is base64- and JSON-decoded, every entry's name is hashed into the
    `vectors` dict and appended, duplicates included, to `vector_names`. */
module Lexicon {
  import opened PyOps
  import opened Hashing

  /** One decoded JSON entry: an object with a string `name`, or anything on
      which `symbol['name'].encode()` raises (no such key, a non-string name). */
  datatype Entry = Named(name: string) | Unnamed

  /** `hashlib.sha256(name.encode()).hexdigest()`. */
  function VectorHash(env: Env, name: string): (h: string)
    ensures IsHexDigest(h)
  {
    HexDigest(env.sha256(Utf8(name)))
  }

  /** The dict after `vectors[name] = hash` for each name in turn. */
  function Register(env: Env, vectors: map<string, string>, names: seq<string>): (r: map<string, string>)
    ensures vectors.Keys <= r.Keys
    decreases |names|
  {
    if names == [] then vectors
    else Register(env, vectors[names[0] := VectorHash(env, names[0])], names[1..])
  }

  /** The names of the entries before the first one that raises. */
  function NamedPrefix(entries: seq<Entry>): (names: seq<string>)
    ensures |names| <= |entries|
  {
    if entries == [] || entries[0].Unnamed? then []
    else [entries[0].name] + NamedPrefix(entries[1..])
  }

  predicate AllNamed(entries: seq<Entry>)
  {
    forall i :: 0 <= i < |entries| ==> entries[i].Named?
  }

  /** NamedPrefix read from position i: stop at an unnamed entry, otherwise
      take its name and continue from i + 1. */
  lemma {:induction false} NamedPrefixFrom(entries: seq<Entry>, i: nat)
    requires i < |entries|
    ensures entries[i].Unnamed? ==> NamedPrefix(entries[i..]) == []
    ensures entries[i].Named? ==> NamedPrefix(entries[i..]) == [entries[i].name] + NamedPrefix(entries[i + 1..])
  {
    assert entries[i..][1..] == entries[i + 1..];
  }

  /** Registering a name and then the rest is registering the whole list. */
  lemma {:induction false} RegisterFirst(env: Env, vectors: map<string, string>, name: string, rest: seq<string>)
    ensures Register(env, vectors, [name] + rest) == Register(env, vectors[name := VectorHash(env, name)], rest)
  {
    assert ([name] + rest)[1..] == rest;
  }

  /** The distinct names of a list. */
  function Elements(names: seq<string>): (s: set<string>)
    ensures forall n :: n in s <==> n in names
    ensures |s| <= |names|
    ensures |s| == 0 <==> names == []
  {
    if names == [] then {} else {names[0]} + Elements(names[1..])
  }

  /** When every entry is named, the names are exactly the entries' names, in order. */
  lemma {:induction false} NamedPrefixOfAllNamed(entries: seq<Entry>)
    requires AllNamed(entries)
    ensures |NamedPrefix(entries)| == |entries|
    ensures forall i :: 0 <= i < |entries| ==> NamedPrefix(entries)[i] == entries[i].name
  {
    if entries != [] {
      NamedPrefixOfAllNamed(entries[1..]);
    }
  }

  /** Registering names adds exactly those names as keys, maps each to the hash
      of its own text, and leaves every other key as it was. */
  lemma {:induction false} RegisterContents(env: Env, vectors: map<string, string>, names: seq<string>)
    ensures Register(env, vectors, names).Keys == vectors.Keys + Elements(names)
    ensures forall n :: n in Elements(names) ==> Register(env, vectors, names)[n] == VectorHash(env, n)
    ensures forall k :: k in vectors && k !in Elements(names) ==> Register(env, vectors, names)[k] == vectors[k]
  {
    RegisterKeys(env, vectors, names);
    RegisterHashes(env, vectors, names);
    RegisterKeepsOthers(env, vectors, names);
  }

  lemma {:induction false} RegisterKeys(env: Env, vectors: map<string, string>, names: seq<string>)
    ensures Register(env, vectors, names).Keys == vectors.Keys + Elements(names)
    decreases |names|
  {
    if names != [] {
      RegisterKeys(env, vectors[names[0] := VectorHash(env, names[0])], names[1..]);
    }
  }

  lemma {:induction false} RegisterHashes(env: Env, vectors: map<string, string>, names: seq<string>)
    ensures forall n :: n in Elements(names) ==>
              (n in Register(env, vectors, names) && Register(env, vectors, names)[n] == VectorHash(env, n))
    decreases |names|
  {
    if names != [] {
      var m := vectors[names[0] := VectorHash(env, names[0])];
      RegisterHashes(env, m, names[1..]);
      RegisterKeepsOthers(env, m, names[1..]);
    }
  }

  lemma {:induction false} RegisterKeepsOthers(env: Env, vectors: map<string, string>, names: seq<string>)
    ensures forall k :: k in vectors && k !in Elements(names) ==> Register(env, vectors, names)[k] == vectors[k]
    decreases |names|
  {
    if names != [] {
      RegisterKeepsOthers(env, vectors[names[0] := VectorHash(env, names[0])], names[1..]);
    }
  }

  /** A lexicon loaded into an empty table has at most as many vectors as names
      (duplicates collapse), and is empty exactly when there are no names. */
  lemma {:induction false} LexiconSize(env: Env, names: seq<string>)
    ensures |Register(env, map[], names)| <= |names|
    ensures |Register(env, map[], names)| == 0 <==> names == []
  {
    RegisterContents(env, map[], names);
    var m := Register(env, map[], names);
    assert m.Keys == Elements(names);
    assert |m| == |m.Keys|;
  }

  class SymbolicProcessor {
    var vectors: map<string, string>
    var vectorNames: seq<string>

    constructor ()
      ensures vectors == map[] && vectorNames == []
    {
      vectors := map[];
      vectorNames := [];
    }

    /** The loop of `load_lexicon` over the decoded symbols; `decoded` is None
        when the file is missing or is not valid base64, UTF-8 or JSON. Returns
        False at the first entry that raises, keeping what was added before it. */
    method LoadLexicon(env: Env, decoded: Option<seq<Entry>>) returns (ok: bool)
      modifies this
      ensures decoded.None? ==> !ok && vectors == old(vectors) && vectorNames == old(vectorNames)
      ensures decoded.Some? ==> ok == AllNamed(decoded.value)
      ensures decoded.Some? ==> vectorNames == old(vectorNames) + NamedPrefix(decoded.value)
      ensures decoded.Some? ==> vectors == Register(env, old(vectors), NamedPrefix(decoded.value))
    {
      if decoded.None? {
        return false;
      }
      var symbols := decoded.value;
      var i := 0;
      while i < |symbols|
        invariant 0 <= i <= |symbols|
        invariant forall k :: 0 <= k < i ==> symbols[k].Named?
        invariant vectorNames + NamedPrefix(symbols[i..]) == old(vectorNames) + NamedPrefix(symbols)
        invariant Register(env, vectors, NamedPrefix(symbols[i..])) == Register(env, old(vectors), NamedPrefix(symbols))
      {
        var symbol := symbols[i];
        NamedPrefixFrom(symbols, i);
        if symbol.Unnamed? {
          return false;
        }
        ghost var rest := NamedPrefix(symbols[i + 1..]);
        RegisterFirst(env, vectors, symbol.name, rest);
        assert vectorNames + [symbol.name] + rest == vectorNames + ([symbol.name] + rest);
        var vecHash := HexDigest(env.sha256(Utf8(symbol.name)));
        vectors := vectors[symbol.name := vecHash];
        vectorNames := vectorNames + [symbol.name];
        i := i + 1;
      }
      assert symbols[i..] == [];
      return true;
    }
  }
}
