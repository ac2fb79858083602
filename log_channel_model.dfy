/** The log-channel collection (server/models/LogChannel.js): one document per
    guild id, written by an upsert that merges the given categories over the
    stored document, or over an all-null one when the guild has none. */
module LogChannelModel {
  import opened Types

  /** The data handed to `createOrUpdate`: the categories it carries (a category
      carried with value null included) and a `guildId` it may carry. Keys other
      than the fourteen categories are not representable: the schema drops them. */
  datatype LogPatch = LogPatch(guildId: Option<string>, fields: map<LogCategory, Option<string>>)

  /** What category `c` becomes when `fields` is written over `base`. */
  function Pick(base: LogChannels, fields: map<LogCategory, Option<string>>, c: LogCategory): Option<string>
  {
    if c in fields then fields[c] else base.Get(c)
  }

  /** Writes every category present in `fields` over `base`; keeps the others. */
  function Overlay(base: LogChannels, fields: map<LogCategory, Option<string>>): (r: LogChannels)
    ensures r.guildId == base.guildId
    ensures forall c :: c in fields ==> r.Get(c) == fields[c]
    ensures forall c :: c !in fields ==> r.Get(c) == base.Get(c)
  {
    LogChannels(base.guildId,
      Pick(base, fields, DurumRolLog), Pick(base, fields, TicketLog), Pick(base, fields, EmojiLog),
      Pick(base, fields, MesajLog), Pick(base, fields, SeviyeLog), Pick(base, fields, IsimLog),
      Pick(base, fields, SesLog), Pick(base, fields, KanalLog), Pick(base, fields, DavetLog),
      Pick(base, fields, GirisCikisLog), Pick(base, fields, BanKickLog), Pick(base, fields, MuteLog),
      Pick(base, fields, JailLog), Pick(base, fields, ModLog))
  }

  /** The document left for guild `g` by `findOneAndUpdate({guildId: g}, {...patch, guildId: g},
      {new: true, upsert: true})`, given the document stored before (if any). */
  function Merge(current: Option<LogChannels>, g: string, patch: LogPatch): (r: LogChannels)
    ensures r.guildId == g
    ensures forall c :: c in patch.fields ==> r.Get(c) == patch.fields[c]
    ensures forall c :: c !in patch.fields && current.Some? ==> r.Get(c) == current.value.Get(c)
    ensures forall c :: c !in patch.fields && current.None? ==> r.Get(c) == None
  {
    var base := if current.Some? then current.value.(guildId := g) else AllNull(g);
    Overlay(base, patch.fields)
  }

  function Find(docs: map<string, LogChannels>, g: string): Option<LogChannels>
  {
    if g in docs then Some(docs[g]) else None
  }

  /** The collection after `createOrUpdate(g, patch)`. */
  function Upsert(docs: map<string, LogChannels>, g: string, patch: LogPatch): (r: map<string, LogChannels>)
    ensures r.Keys == docs.Keys + {g}
    ensures forall h :: h in docs && h != g ==> r[h] == docs[h]
  {
    docs[g := Merge(Find(docs, g), g, patch)]
  }

  /** Every document sits under its own guild id: at most one document per guild. */
  ghost predicate Keyed(docs: map<string, LogChannels>)
  {
    forall g :: g in docs ==> docs[g].guildId == g
  }

  class LogChannelCollection {
    var docs: map<string, LogChannels>

    ghost predicate Valid()
      reads this
    {
      Keyed(docs)
    }

    constructor ()
      ensures Valid() && docs == map[]
    {
      docs := map[];
    }

    /** `findOne({guildId: g})`. */
    method FindOne(g: string) returns (r: Option<LogChannels>)
      requires Valid()
      ensures r.Some? <==> g in docs
      ensures r.Some? ==> r.value == docs[g] && r.value.guildId == g
    {
      if g in docs {
        r := Some(docs[g]);
      } else {
        r := None;
      }
    }

    /** `createOrUpdate(g, patch)`: upsert, returning the document after the write. */
    method CreateOrUpdate(g: string, patch: LogPatch) returns (doc: LogChannels)
      requires Valid()
      modifies this
      ensures Valid()
      ensures doc == Merge(Find(old(docs), g), g, patch)
      ensures docs == old(docs)[g := doc]
      ensures docs == Upsert(old(docs), g, patch)
    {
      doc := Merge(Find(docs, g), g, patch);
      docs := docs[g := doc];
    }
  }

  /** The patch that applies `p1` and then `p2`: on a key both carry, `p2` wins. */
  function Then(p1: LogPatch, p2: LogPatch): LogPatch
  {
    LogPatch(p2.guildId, p1.fields + p2.fields)
  }

  /** Two upserts on one guild are one upsert with the combined patch. */
  lemma {:induction false} MergeTwice(current: Option<LogChannels>, g: string, p1: LogPatch, p2: LogPatch)
    ensures Merge(Some(Merge(current, g, p1)), g, p2) == Merge(current, g, Then(p1, p2))
  {
    var a := Merge(Some(Merge(current, g, p1)), g, p2);
    var b := Merge(current, g, Then(p1, p2));
    forall c ensures a.Get(c) == b.Get(c) {
      if c in p2.fields {
      } else if c in p1.fields {
      } else {
      }
    }
    LogChannelsExt(a, b);
  }

  /** Upserting the same data twice leaves the same collection as upserting it once. */
  lemma {:induction false} UpsertIdempotent(docs: map<string, LogChannels>, g: string, patch: LogPatch)
    ensures Upsert(Upsert(docs, g, patch), g, patch) == Upsert(docs, g, patch)
  {
    MergeTwice(Find(docs, g), g, patch, patch);
    assert patch.fields + patch.fields == patch.fields;
    assert Then(patch, patch) == patch;
  }

  /** Two upserts on one guild compose into one upsert of the combined data. */
  lemma {:induction false} UpsertCompose(docs: map<string, LogChannels>, g: string, p1: LogPatch, p2: LogPatch)
    ensures Upsert(Upsert(docs, g, p1), g, p2) == Upsert(docs, g, Then(p1, p2))
  {
    MergeTwice(Find(docs, g), g, p1, p2);
  }

  /** The upsert keeps the collection keyed by guild id, whatever `guildId` the data carries. */
  lemma {:induction false} UpsertKeepsKeyed(docs: map<string, LogChannels>, g: string, patch: LogPatch)
    requires Keyed(docs)
    ensures Keyed(Upsert(docs, g, patch))
    ensures Find(Upsert(docs, g, patch), g) == Some(Merge(Find(docs, g), g, patch))
  {
  }

  /** Upserting an all-null patch into a guild without a document gives the all-null document. */
  lemma {:induction false} MergeAllNull(g: string, patch: LogPatch)
    requires forall c :: c in patch.fields && patch.fields[c] == None
    ensures Merge(None, g, patch) == AllNull(g)
  {
    var r := Merge(None, g, patch);
    forall c ensures r.Get(c) == AllNull(g).Get(c) {
    }
    LogChannelsExt(r, AllNull(g));
  }
}
