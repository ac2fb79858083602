/** The language collection (server/models/GuildLanguage.js): one document per
    guild id holding a language code, written by an upsert that replaces the
    code. The update runs no schema validation, so the store itself holds any
    string; the controller keeps it within the ten codes. */
module GuildLanguageModel {
  import opened Types

  datatype LanguageDoc = LanguageDoc(guildId: string, language: string)

  /** The schema's `enum` for the language field. */
  predicate InSchemaEnum(language: string)
  {
    language in LanguageCodes
  }

  function Find(docs: map<string, LanguageDoc>, g: string): Option<LanguageDoc>
  {
    if g in docs then Some(docs[g]) else None
  }

  /** The collection after `createOrUpdate(g, language)`. */
  function Upsert(docs: map<string, LanguageDoc>, g: string, language: string): (r: map<string, LanguageDoc>)
    ensures r.Keys == docs.Keys + {g}
    ensures r[g] == LanguageDoc(g, language)
    ensures forall h :: h in docs && h != g ==> r[h] == docs[h]
  {
    docs[g := LanguageDoc(g, language)]
  }

  ghost predicate Keyed(docs: map<string, LanguageDoc>)
  {
    forall g :: g in docs ==> docs[g].guildId == g
  }

  /** Every stored code is one of the ten. */
  ghost predicate AllInEnum(docs: map<string, LanguageDoc>)
  {
    forall g :: g in docs ==> InSchemaEnum(docs[g].language)
  }

  class GuildLanguageCollection {
    var docs: map<string, LanguageDoc>

    ghost predicate Valid()
      reads this
    {
      Keyed(docs)
    }

    constructor ()
      ensures Valid() && docs == map[]
    {
      docs := map[];
    }

    /** `findOne({guildId: g})`. */
    method FindOne(g: string) returns (r: Option<LanguageDoc>)
      requires Valid()
      ensures r.Some? <==> g in docs
      ensures r.Some? ==> r.value == docs[g] && r.value.guildId == g
    {
      if g in docs {
        r := Some(docs[g]);
      } else {
        r := None;
      }
    }

    /** `createOrUpdate(g, language)`: create or overwrite, returning the document after the write. */
    method CreateOrUpdate(g: string, language: string) returns (doc: LanguageDoc)
      requires Valid()
      modifies this
      ensures Valid()
      ensures doc == LanguageDoc(g, language)
      ensures docs == Upsert(old(docs), g, language)
    {
      doc := LanguageDoc(g, language);
      docs := docs[g := doc];
    }
  }

  /** Writing the same code twice is writing it once; the last of two writes wins. */
  lemma {:induction false} UpsertLastWins(docs: map<string, LanguageDoc>, g: string, l1: string, l2: string)
    ensures Upsert(Upsert(docs, g, l1), g, l2) == Upsert(docs, g, l2)
    ensures Upsert(Upsert(docs, g, l1), g, l1) == Upsert(docs, g, l1)
  {
    assert Upsert(docs, g, l1)[g := LanguageDoc(g, l2)] == docs[g := LanguageDoc(g, l2)];
  }

  /** A stored code in the enum reads back as a client-side language document. */
  function ToClient(d: LanguageDoc): (r: Option<GuildLanguage>)
    ensures r.Some? <==> InSchemaEnum(d.language)
    ensures r.Some? ==> r.value.guildId == d.guildId && Code(r.value.language) == d.language
  {
    match ParseLang(d.language)
    case Some(l) => Some(GuildLanguage(d.guildId, l))
    case None => None
  }
}
