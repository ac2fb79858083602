/** The log-channel editor of src/pages/LogChannelsPage.tsx: a working copy
    edited category by category against the snapshot loaded from (or last saved
    to) the server. The `hasChanges` effect is folded into every handler that
    changes either copy. Loading and saving are split at their `await`s; the
    server's answers are parameters. */
module LogChannelsPage {
  import opened Types
  import LogChannelModel
  import GuildController

  /** The `'null'` option of the channel select stands for "no channel". */
  const NoChannelOption := "null"

  const LoadFailedMessage := "Failed to load log channel configuration. Please try again later."

  /** What choosing `option` in a category's select stores. */
  function ChannelOfOption(option: string): (r: Option<string>)
    ensures r.None? <==> option == NoChannelOption
    ensures r.Some? ==> r.value == option
  {
    if option == NoChannelOption then None else Some(option)
  }

  /** The `hasChanges` effect: some key of the working copy differs from the snapshot. */
  predicate SomeKeyDiffers(working: LogChannels, original: LogChannels)
  {
    working.guildId != original.guildId || exists c :: working.Get(c) != original.Get(c)
  }

  /** Key by key comparison is document equality. */
  lemma {:induction false} SomeKeyDiffersIffUnequal(working: LogChannels, original: LogChannels)
    ensures SomeKeyDiffers(working, original) <==> working != original
  {
    if !SomeKeyDiffers(working, original) {
      LogChannelsExt(working, original);
    }
  }

  /** Changing a category and then resetting it restores the working copy, when
      that category had not been changed before. */
  lemma {:induction false} ChangeThenReset(working: LogChannels, original: LogChannels, c: LogCategory, option: string)
    requires working.Get(c) == original.Get(c)
    ensures working.Set(c, ChannelOfOption(option)).Set(c, original.Get(c)) == working
  {
    var back := working.Set(c, ChannelOfOption(option)).Set(c, original.Get(c));
    LogChannelsExt(back, working);
  }

  /** The body a save sends: every category of the working copy, and its guild id. */
  function SaveBody(working: LogChannels): (p: LogChannelModel.LogPatch)
    ensures p.guildId == Some(working.guildId)
    ensures forall c :: c in p.fields && p.fields[c] == working.Get(c)
  {
    assert forall c: LogCategory :: c in AllCategories by {
      forall c: LogCategory ensures c in AllCategories {
        AllCategoriesComplete(c);
      }
    }
    LogChannelModel.LogPatch(Some(working.guildId), map c: LogCategory | c in AllCategories :: working.Get(c))
  }

  /** A save sends all fourteen categories, so the server stores and answers the
      working copy itself, whatever it held before: after a successful save the
      snapshot is exactly what the server holds. */
  lemma {:induction false} SaveStoresWorkingCopy(docs: map<string, LogChannels>, working: LogChannels)
    ensures LogChannelModel.Upsert(docs, working.guildId, SaveBody(working))[working.guildId] == working
  {
    var g := working.guildId;
    var stored := LogChannelModel.Merge(LogChannelModel.Find(docs, g), g, SaveBody(working));
    forall c ensures stored.Get(c) == working.Get(c) {
      AllCategoriesComplete(c);
    }
    LogChannelsExt(stored, working);
  }

  class LogChannelsEditor {
    /** The `:guildId` route parameter. */
    const guildId: Option<string>
    var channels: seq<Channel>
    var working: Option<LogChannels>
    var original: Option<LogChannels>
    var loading: bool
    var saving: bool
    var error: Option<string>
    var hasChanges: bool

    /** A snapshot exists only beside a working copy, and the flag is the
        comparison of the two whenever both exist. */
    ghost predicate Valid()
      reads this
    {
      (original.Some? ==> working.Some?)
      && (working.Some? && original.Some? ==> hasChanges == SomeKeyDiffers(working.value, original.value))
    }

    constructor (guildId: Option<string>)
      ensures Valid() && this.guildId == guildId
      ensures channels == [] && working.None? && original.None?
      ensures loading && !saving && error.None? && !hasChanges
    {
      this.guildId := guildId;
      channels := [];
      working := None;
      original := None;
      loading := true;
      saving := false;
      error := None;
      hasChanges := false;
    }

    /** Save and Reset All: `disabled={!hasChanges || saving}`. */
    predicate SaveEnabled()
      reads this
    {
      hasChanges && !saving
    }

    /** A category's Reset: disabled when the category equals the snapshot's. */
    predicate ResetChannelEnabled(c: LogCategory)
      reads this
      requires working.Some?
    {
      original.None? || working.value.Get(c) != original.value.Get(c)
    }

    /** The fetch effect: both requests of the parallel load succeed, or the load fails. */
    method Load(fetchedChannels: Result<seq<Channel>>, fetchedLogs: Result<LogChannels>)
      requires Valid()
      modifies this
      ensures Valid()
      ensures !Truthy(guildId) ==> unchanged(this)
      ensures Truthy(guildId) && fetchedChannels.Success? && fetchedLogs.Success? ==>
        channels == fetchedChannels.value
        && working == Some(fetchedLogs.value) && original == Some(fetchedLogs.value)
        && !hasChanges && !loading && error == old(error) && saving == old(saving)
      ensures Truthy(guildId) && !(fetchedChannels.Success? && fetchedLogs.Success?) ==>
        error == Some(LoadFailedMessage) && !loading
        && channels == old(channels) && working == old(working) && original == old(original)
        && hasChanges == old(hasChanges) && saving == old(saving)
    {
      if !Truthy(guildId) {
        return;
      }
      if fetchedChannels.Success? && fetchedLogs.Success? {
        channels := fetchedChannels.value;
        working := Some(fetchedLogs.value);
        original := Some(fetchedLogs.value);
        hasChanges := false;
      } else {
        error := Some(LoadFailedMessage);
      }
      loading := false;
    }

    /** `handleChannelChange`: only category `c` of the working copy changes. */
    method ChangeChannel(c: LogCategory, option: string)
      requires Valid()
      modifies this
      ensures Valid()
      ensures old(working).None? ==> unchanged(this)
      ensures old(working).Some? ==>
        working == Some(old(working).value.Set(c, ChannelOfOption(option)))
        && original == old(original) && channels == old(channels)
        && loading == old(loading) && saving == old(saving) && error == old(error)
        && (original.None? ==> hasChanges == old(hasChanges))
    {
      if working.None? {
        return;
      }
      working := Some(working.value.Set(c, ChannelOfOption(option)));
      if original.Some? {
        hasChanges := SomeKeyDiffers(working.value, original.value);
      }
    }

    /** `handleResetChannel`: category `c` takes the snapshot's value again. */
    method ResetChannel(c: LogCategory)
      requires Valid()
      modifies this
      ensures Valid()
      ensures old(original).None? ==> unchanged(this)
      ensures old(original).Some? ==>
        working == Some(old(working).value.Set(c, old(original).value.Get(c)))
        && original == old(original) && channels == old(channels)
        && loading == old(loading) && saving == old(saving) && error == old(error)
        && !ResetChannelEnabled(c)
    {
      if working.None? || original.None? {
        return;
      }
      working := Some(working.value.Set(c, original.value.Get(c)));
      hasChanges := SomeKeyDiffers(working.value, original.value);
    }

    /** `handleResetAll`: the working copy becomes the snapshot and nothing is left to save. */
    method ResetAll()
      requires Valid()
      modifies this
      ensures Valid()
      ensures old(original).None? ==> unchanged(this)
      ensures old(original).Some? ==>
        working == original && original == old(original) && !hasChanges && !SaveEnabled()
        && channels == old(channels) && loading == old(loading) && saving == old(saving) && error == old(error)
    {
      if original.None? {
        return;
      }
      working := original;
      hasChanges := false;
    }

    /** `handleSaveChanges` up to the request: marks saving when there is something to send. */
    method BeginSave() returns (body: Option<LogChannelModel.LogPatch>)
      requires Valid()
      modifies this`saving
      ensures body.Some? <==> old(working).Some? && Truthy(guildId)
      ensures body.Some? ==> body.value == SaveBody(working.value) && saving && !SaveEnabled()
      ensures body.None? ==> saving == old(saving)
    {
      if working.None? || !Truthy(guildId) {
        return None;
      }
      saving := true;
      body := Some(SaveBody(working.value));
    }

    /** The rest of `handleSaveChanges`: on success both copies become the
        server's answer; on failure nothing but `saving` changes. */
    method CompleteSave(answer: Result<LogChannels>)
      requires Valid()
      modifies this
      ensures Valid() && !saving
      ensures answer.Success? ==>
        working == Some(answer.value) && original == Some(answer.value) && !hasChanges
      ensures answer.Failure? ==>
        working == old(working) && original == old(original) && hasChanges == old(hasChanges)
      ensures channels == old(channels) && loading == old(loading) && error == old(error)
    {
      if answer.Success? {
        working := Some(answer.value);
        original := Some(answer.value);
        hasChanges := false;
      }
      saving := false;
    }
  }

  /** Against the server's PUT handler: saving a loaded editor leaves it with
      nothing to save and with a snapshot equal to what the server now holds. */
  method SaveAgainstStore(editor: LogChannelsEditor, store: LogChannelModel.LogChannelCollection)
    requires editor.Valid() && store.Valid()
    requires editor.working.Some? && Truthy(editor.guildId)
    modifies editor, store
    ensures editor.Valid() && store.Valid()
    ensures editor.original.Some? && !editor.hasChanges && !editor.saving
    ensures editor.original.value == old(editor.working.value)
    ensures editor.original.value.guildId in store.docs
    ensures store.docs[editor.original.value.guildId] == editor.original.value
  {
    var body := editor.BeginSave();
    var w := editor.working.value;
    var r := GuildController.UpdateLogChannels(store, w.guildId, body, false);
    SaveStoresWorkingCopy(old(store.docs), w);
    editor.CompleteSave(Success(r.body));
  }
}
