/** The guild-to-channel subscriptions: an insertion-ordered dictionary (a
    Python `dict`) from guild-id strings to channel ids, and the JSON file it
    is written to and read back from. */
module ChannelRegistry {
  import opened Wrappers

  datatype Entry = Entry(guild: string, channel: int)

  /** The registry in iteration order; a well-formed one has distinct keys. */
  type Registry = seq<Entry>

  /** The state of the configuration file on disk. `Json(pairs)` is a
      parseable JSON object whose key/value pairs appear in that order. */
  datatype RegistryFile = Missing | Unparsable | Json(pairs: seq<Entry>)

  function Keys(reg: Registry): seq<string>
  {
    if reg == [] then [] else [reg[0].guild] + Keys(reg[1..])
  }

  predicate DistinctKeys(reg: Registry) {
    reg == [] || (reg[0].guild !in Keys(reg[1..]) && DistinctKeys(reg[1..]))
  }

  /** `reg.get(g)`. */
  function Lookup(reg: Registry, g: string): Option<int>
  {
    if reg == [] then None
    else if reg[0].guild == g then Some(reg[0].channel)
    else Lookup(reg[1..], g)
  }

  /** The `in` test agrees with lookup. */
  lemma {:induction false} LookupAbsent(reg: Registry, g: string)
    ensures Lookup(reg, g).None? <==> g !in Keys(reg)
  {
    if reg != [] {
      LookupAbsent(reg[1..], g);
    }
  }

  lemma {:induction false} KeyOfEntry(reg: Registry, i: nat)
    requires i < |reg|
    ensures reg[i].guild in Keys(reg)
  {
    if i > 0 {
      KeyOfEntry(reg[1..], i - 1);
    }
  }

  lemma {:induction false} KeysAppend(a: Registry, b: Registry)
    ensures Keys(a + b) == Keys(a) + Keys(b)
  {
    if a == [] {
      assert a + b == b;
    } else {
      assert (a + b)[0] == a[0];
      assert (a + b)[1..] == a[1..] + b;
      KeysAppend(a[1..], b);
    }
  }

  /** Two registries concatenate to a well-formed one exactly when each is
      well-formed and they share no key. */
  lemma {:induction false} DistinctConcat(a: Registry, b: Registry)
    ensures DistinctKeys(a + b) <==>
      DistinctKeys(a) && DistinctKeys(b) && forall k :: k in Keys(a) ==> k !in Keys(b)
  {
    if a == [] {
      assert a + b == b;
    } else {
      assert (a + b)[1..] == a[1..] + b;
      KeysAppend(a[1..], b);
      DistinctConcat(a[1..], b);
    }
  }

  /** `reg[g] = c`: an existing key keeps its position, a new key goes last. */
  function Upsert(reg: Registry, g: string, c: int): (r: Registry)
    ensures Keys(r) == if g in Keys(reg) then Keys(reg) else Keys(reg) + [g]
    ensures g !in Keys(reg) ==> r == reg + [Entry(g, c)]
  {
    if reg == [] then [Entry(g, c)]
    else if reg[0].guild == g then [Entry(g, c)] + reg[1..]
    else [reg[0]] + Upsert(reg[1..], g, c)
  }

  /** After `reg[g] = c`, `g` maps to `c` and every other key to what it did. */
  lemma {:induction false} UpsertLookup(reg: Registry, g: string, c: int, k: string)
    ensures Lookup(Upsert(reg, g, c), k) == if k == g then Some(c) else Lookup(reg, k)
  {
    if reg != [] && reg[0].guild != g {
      UpsertLookup(reg[1..], g, c, k);
    }
  }

  lemma {:induction false} UpsertDistinct(reg: Registry, g: string, c: int)
    requires DistinctKeys(reg)
    ensures DistinctKeys(Upsert(reg, g, c))
  {
    if reg != [] && reg[0].guild != g {
      UpsertDistinct(reg[1..], g, c);
    }
  }

  /** `del reg[g]` guarded by `g in reg`: the entries for `g` are dropped. */
  function Remove(reg: Registry, g: string): (r: Registry)
    ensures g !in Keys(r)
    ensures g !in Keys(reg) ==> r == reg
  {
    if reg == [] then []
    else if reg[0].guild == g then Remove(reg[1..], g)
    else [reg[0]] + Remove(reg[1..], g)
  }

  /** After the delete, `g` is absent and every other key maps to what it did. */
  lemma {:induction false} RemoveLookup(reg: Registry, g: string, k: string)
    ensures Lookup(Remove(reg, g), k) == if k == g then None else Lookup(reg, k)
  {
    if k == g {
      LookupAbsent(Remove(reg, g), g);
    } else if reg != [] {
      RemoveLookup(reg[1..], g, k);
    }
  }

  lemma {:induction false} RemoveKeepsOtherKeys(reg: Registry, g: string, k: string)
    ensures k in Keys(Remove(reg, g)) <==> k in Keys(reg) && k != g
  {
    if reg != [] {
      RemoveKeepsOtherKeys(reg[1..], g, k);
    }
  }

  lemma {:induction false} RemoveDistinct(reg: Registry, g: string)
    requires DistinctKeys(reg)
    ensures DistinctKeys(Remove(reg, g))
  {
    if reg != [] {
      RemoveDistinct(reg[1..], g);
      RemoveKeepsOtherKeys(reg[1..], g, reg[0].guild);
    }
  }

  lemma RemoveHead(reg: Registry)
    requires DistinctKeys(reg) && reg != []
    ensures Remove(reg, reg[0].guild) == reg[1..]
  {
  }

  lemma RemoveSkip(reg: Registry, g: string)
    requires reg != [] && reg[0].guild != g
    ensures Remove(reg, g) == [reg[0]] + Remove(reg[1..], g)
  {
  }

  lemma {:induction false} RemoveAt(reg: Registry, i: nat)
    requires DistinctKeys(reg) && i < |reg|
    ensures Remove(reg, reg[i].guild) == reg[..i] + reg[i + 1..]
  {
    if i == 0 {
      RemoveHead(reg);
      assert reg[..0] + reg[1..] == reg[1..];
    } else {
      var g, tail := reg[i].guild, reg[1..];
      assert tail[i - 1] == reg[i];
      KeyOfEntry(tail, i - 1);
      RemoveSkip(reg, g);
      RemoveAt(tail, i - 1);
      assert reg[..i] + reg[i + 1..] == [reg[0]] + (tail[..i - 1] + tail[i..]);
    }
  }

  /** What `json.load` builds from the file's pairs: a dict filled in file
      order, so a repeated key keeps its first position and its last value. */
  function FromPairs(pairs: seq<Entry>): (r: Registry)
    ensures DistinctKeys(r)
  {
    if pairs == [] then []
    else
      var last := pairs[|pairs| - 1];
      var prev := FromPairs(pairs[..|pairs| - 1]);
      UpsertDistinct(prev, last.guild, last.channel);
      Upsert(prev, last.guild, last.channel)
  }

  /** The value a guild has in the file: the last pair naming it. */
  function LastValue(pairs: seq<Entry>, g: string): Option<int>
  {
    if pairs == [] then None
    else if pairs[|pairs| - 1].guild == g then Some(pairs[|pairs| - 1].channel)
    else LastValue(pairs[..|pairs| - 1], g)
  }

  lemma {:induction false} FromPairsLastWins(pairs: seq<Entry>, g: string)
    ensures Lookup(FromPairs(pairs), g) == LastValue(pairs, g)
  {
    if pairs != [] {
      var last := pairs[|pairs| - 1];
      FromPairsLastWins(pairs[..|pairs| - 1], g);
      UpsertLookup(FromPairs(pairs[..|pairs| - 1]), last.guild, last.channel, g);
    }
  }

  /** Reading back pairs that were written from a dict gives the same dict. */
  lemma {:induction false} FromPairsOfDistinct(pairs: seq<Entry>)
    requires DistinctKeys(pairs)
    ensures FromPairs(pairs) == pairs
  {
    if pairs != [] {
      var init, last := pairs[..|pairs| - 1], pairs[|pairs| - 1];
      assert init + [last] == pairs;
      DistinctConcat(init, [last]);
      assert last.guild in Keys([last]);
      FromPairsOfDistinct(init);
    }
  }

  /** `load_channels`: a missing or unparsable file reads as the empty registry. */
  function Load(f: RegistryFile): (r: Registry)
    ensures DistinctKeys(r)
    ensures !f.Json? ==> r == []
  {
    match f
    case Missing => []
    case Unparsable => []
    case Json(pairs) => FromPairs(pairs)
  }

  /** `save_channels`: the whole registry, in its order, replaces the file. */
  function Save(reg: Registry): RegistryFile {
    Json(reg)
  }

  lemma LoadSave(reg: Registry)
    requires DistinctKeys(reg)
    ensures Load(Save(reg)) == reg
  {
    FromPairsOfDistinct(reg);
  }

  /** A file written by the bot survives a load followed by a save unchanged. */
  lemma SaveLoad(pairs: seq<Entry>)
    requires DistinctKeys(pairs)
    ensures Save(Load(Json(pairs))) == Json(pairs)
  {
    FromPairsOfDistinct(pairs);
  }
}
