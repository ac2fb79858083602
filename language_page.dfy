/** The language editor of src/pages/LanguagePage.tsx: a working language
    document against the language loaded from (or last saved to) the server.
    `hasChanges` is derived on every render, as in the source. Loading and
    saving are split at their `await`s; the server's answers are parameters. */
module LanguagePage {
  import opened Types
  import GuildLanguageModel
  import GuildController
  import Http

  /** The options of the language picker, in display order. */
  const Selectable: seq<Lang> := [Tr, En, Es, Ru, Zh, Fr, Pt, Ja, Ko, De]

  const LoadFailedMessage := "Failed to load language configuration. Please try again later."

  /** The picker offers every language exactly once, and its codes are the ones the server accepts. */
  lemma {:induction false} SelectableIsEveryLanguage(l: Lang)
    ensures l in Selectable
    ensures |Selectable| == |LanguageCodes|
    ensures forall i :: 0 <= i < |Selectable| ==> Code(Selectable[i]) == LanguageCodes[i]
    ensures forall i, j :: 0 <= i < j < |Selectable| ==> Selectable[i] != Selectable[j]
  {
    SelectableCodes();
    LanguageCodesDistinct();
    forall i, j | 0 <= i < j < |Selectable| ensures Selectable[i] != Selectable[j] {
      assert Code(Selectable[i]) != Code(Selectable[j]);
    }
    var k :| 0 <= k < |LanguageCodes| && LanguageCodes[k] == Code(l);
    ParseCode(l);
    ParseCode(Selectable[k]);
  }

  /** The picker's options print, in order, as the server's code list. */
  lemma {:induction false} SelectableCodes()
    ensures |Selectable| == |LanguageCodes|
    ensures forall i :: 0 <= i < |Selectable| ==> Code(Selectable[i]) == LanguageCodes[i]
  {
  }

  /** `guildLanguage?.language !== originalLanguage`: before anything is loaded
      `undefined !== null` holds, so the page counts as changed. */
  function HasChanges(working: Option<GuildLanguage>, original: Option<Lang>): (r: bool)
    ensures working.None? ==> r
    ensures working.Some? && original.Some? ==> (r <==> working.value.language != original.value)
  {
    working.None? || original != Some(working.value.language)
  }

  class LanguageEditor {
    /** The `:guildId` route parameter. */
    const guildId: Option<string>
    var working: Option<GuildLanguage>
    var original: Option<Lang>
    var loading: bool
    var saving: bool
    var error: Option<string>

    /** The working copy and the original language are loaded together. */
    ghost predicate Valid()
      reads this
    {
      working.Some? <==> original.Some?
    }

    constructor (guildId: Option<string>)
      ensures Valid() && this.guildId == guildId
      ensures working.None? && original.None? && loading && !saving && error.None?
    {
      this.guildId := guildId;
      working := None;
      original := None;
      loading := true;
      saving := false;
      error := None;
    }

    predicate Changed()
      reads this
    {
      HasChanges(working, original)
    }

    /** Save and Reset: `disabled={!hasChanges || saving}`. */
    predicate ButtonsEnabled()
      reads this
    {
      Changed() && !saving
    }

    /** The fetch effect. */
    method Load(fetched: Result<GuildLanguage>)
      requires Valid()
      modifies this
      ensures Valid()
      ensures !Truthy(guildId) ==> unchanged(this)
      ensures Truthy(guildId) && fetched.Success? ==>
        working == Some(fetched.value) && original == Some(fetched.value.language) && !Changed()
        && !loading && saving == old(saving) && error == old(error)
      ensures Truthy(guildId) && fetched.Failure? ==>
        working == old(working) && original == old(original)
        && !loading && saving == old(saving) && error == Some(LoadFailedMessage)
    {
      if !Truthy(guildId) {
        return;
      }
      if fetched.Success? {
        working := Some(fetched.value);
        original := Some(fetched.value.language);
      } else {
        error := Some(LoadFailedMessage);
      }
      loading := false;
    }

    /** `handleLanguageChange`: only the language of the working copy changes. */
    method ChangeLanguage(l: Lang)
      requires Valid()
      modifies this`working
      ensures Valid()
      ensures old(working).None? ==> working == old(working)
      ensures old(working).Some? ==>
        working == Some(old(working).value.(language := l))
        && working.value.guildId == old(working).value.guildId
        && (Changed() <==> l != original.value)
    {
      if working.None? {
        return;
      }
      working := Some(working.value.(language := l));
    }

    /** `handleResetLanguage`: the original language again; nothing happens before a load. */
    method ResetLanguage()
      requires Valid()
      modifies this`working
      ensures Valid()
      ensures old(working).None? ==> working == old(working)
      ensures old(working).Some? ==>
        working == Some(old(working).value.(language := original.value)) && !Changed()
    {
      if working.None? || original.None? {
        return;
      }
      working := Some(working.value.(language := original.value));
    }

    /** `handleSaveChanges` up to the request: marks saving when there is something to send. */
    method BeginSave() returns (body: Option<GuildLanguage>)
      requires Valid()
      modifies this`saving
      ensures body.Some? <==> working.Some? && Truthy(guildId)
      ensures body.Some? ==> body == working && saving && !ButtonsEnabled()
      ensures body.None? ==> saving == old(saving)
    {
      if working.None? || !Truthy(guildId) {
        return None;
      }
      saving := true;
      body := working;
    }

    /** The rest of `handleSaveChanges`: on success the working copy and the
        original become the server's answer; on failure only `saving` changes. */
    method CompleteSave(answer: Result<GuildLanguage>)
      requires Valid()
      modifies this
      ensures Valid() && !saving
      ensures answer.Success? ==>
        working == Some(answer.value) && original == Some(answer.value.language) && !Changed()
      ensures answer.Failure? ==> working == old(working) && original == old(original)
      ensures loading == old(loading) && error == old(error)
    {
      if answer.Success? {
        working := Some(answer.value);
        original := Some(answer.value.language);
      }
      saving := false;
    }
  }

  /** The body the client sends, as the server's controller reads it. */
  function RequestBody(working: GuildLanguage): GuildController.LanguageBody
  {
    GuildController.LanguageBody(Some(Code(working.language)))
  }

  /** A language the picker offers always passes the server's validation, and the
      server's answer reads back as the language that was sent. */
  lemma {:induction false} SaveAccepted(working: GuildLanguage)
    ensures GuildController.CheckLanguage(RequestBody(working).language) == Http.Ok(working.language)
    ensures GuildLanguageModel.ToClient(GuildLanguageModel.LanguageDoc(working.guildId, Code(working.language)))
      == Some(working)
  {
    ParseCode(working.language);
  }

  /** Saving a loaded editor against the server's store: the store then holds the
      chosen language for the guild and the editor has nothing left to save. */
  method SaveAgainstStore(editor: LanguageEditor, store: GuildLanguageModel.GuildLanguageCollection)
    requires editor.Valid() && store.Valid()
    requires editor.working.Some? && Truthy(editor.guildId)
    modifies editor, store
    ensures editor.Valid() && store.Valid()
    ensures editor.working == old(editor.working) && !editor.Changed() && !editor.saving
    ensures var w := editor.working.value;
            w.guildId in store.docs && store.docs[w.guildId] == GuildLanguageModel.LanguageDoc(w.guildId, Code(w.language))
  {
    var body := editor.BeginSave();
    var w := body.value;
    SaveAccepted(w);
    var r := GuildController.UpdateGuildLanguage(store, w.guildId, Some(RequestBody(w)), false);
    editor.CompleteSave(Success(GuildLanguageModel.ToClient(r.body).value));
  }
}
