/**
 * The admin's settings table (components/admin/system-settings-table.tsx): search and
 * category filter, the create dialog, and the inline editor driven by `editingId` and
 * `editValue`.
 */
module SystemSettingsTable {
  import opened Wrappers
  import opened Types
  import opened Seqs
  import opened Text
  import opened SystemPage

  /** The search covers key and description; the category filter is "all" or a category. */
  predicate SettingMatches(s: SystemSetting, searchTerm: string, selectedCategory: string)
  {
    (MatchesTerm(s.key, searchTerm) || MatchesTerm(s.description, searchTerm))
    && (selectedCategory == "all" || SettingCategoryName(s.category) == selectedCategory)
  }

  function SettingFilter(searchTerm: string, selectedCategory: string): SystemSetting -> bool
  {
    (s: SystemSetting) => SettingMatches(s, searchTerm, selectedCategory)
  }

  /** `filteredSettings`: the matching settings, in list order. */
  function FilteredSettings(settings: seq<SystemSetting>, searchTerm: string, selectedCategory: string): (r: seq<SystemSetting>)
    ensures forall s :: s in r <==> s in settings && SettingMatches(s, searchTerm, selectedCategory)
    ensures IsSubseq(r, settings)
    ensures KeepsEveryCopy(r, settings, SettingFilter(searchTerm, selectedCategory))
  {
    FilterIsSubseq(settings, SettingFilter(searchTerm, selectedCategory));
    FilterKeepsEveryCopy(settings, SettingFilter(searchTerm, selectedCategory));
    Filter(settings, SettingFilter(searchTerm, selectedCategory))
  }

  /** A row shows the inline editor when its id is the one being edited, and its Edit button
      otherwise. */
  predicate InEditMode(editingId: Option<string>, s: SystemSetting)
  {
    editingId == Some(s.id)
  }

  predicate EditButtonShown(editingId: Option<string>, s: SystemSetting)
  {
    editingId != Some(s.id)
  }

  /** With distinct ids at most one row is being edited; that row hides its Edit button and
      every other row shows it. */
  lemma AtMostOneRowEditing(settings: seq<SystemSetting>, editingId: Option<string>)
    requires forall i, j :: 0 <= i < j < |settings| ==> settings[i].id != settings[j].id
    ensures forall i, j ::
      0 <= i < |settings| && 0 <= j < |settings| && InEditMode(editingId, settings[i]) && InEditMode(editingId, settings[j])
      ==> i == j
    ensures forall i :: 0 <= i < |settings| ==> (EditButtonShown(editingId, settings[i]) <==> !InEditMode(editingId, settings[i]))
  {
  }

  /** The create dialog's fields. */
  datatype SettingForm = SettingForm(category: SettingCategory, key: string, value: string, description: string, valueType: SettingType)

  function CreatePayload(form: SettingForm): (p: SettingPatch)
    ensures CreatableFrom(p)
  {
    SettingPatch(Some(form.category), Some(form.key), Some(form.value), Some(form.description), Some(form.valueType))
  }

  /** A setting created from the dialog carries exactly what was typed. */
  lemma CreatedSettingMatchesForm(form: SettingForm, newId: string, now: int)
    ensures var s := NewSetting(newId, now, CreatePayload(form));
      s.category == form.category && s.key == form.key && s.value == form.value
      && s.description == form.description && s.valueType == form.valueType
  {
  }

  datatype UpdateCall = UpdateCall(settingId: string, value: string)

  class SettingsEditor {
    var editingId: Option<string>
    var editValue: string
    var isCreateDialogOpen: bool

    constructor()
      ensures editingId.None? && editValue == "" && !isCreateDialogOpen
    {
      editingId := None;
      editValue := "";
      isCreateDialogOpen := false;
    }

    /** `handleEdit`: edit this row, starting from its current value. */
    method HandleEdit(s: SystemSetting)
      modifies this
      ensures editingId == Some(s.id) && editValue == s.value
      ensures isCreateDialogOpen == old(isCreateDialogOpen)
    {
      editingId := Some(s.id);
      editValue := s.value;
    }

    /** Typing into the inline editor. */
    method EnterValue(value: string)
      modifies this
      ensures editValue == value && editingId == old(editingId) && isCreateDialogOpen == old(isCreateDialogOpen)
    {
      editValue := value;
    }

    /** `handleSave`: the update call with the edited value, then the editor closes. */
    method HandleSave(settingId: string) returns (call: UpdateCall)
      modifies this
      ensures call == UpdateCall(settingId, old(editValue))
      ensures editingId.None? && editValue == "" && isCreateDialogOpen == old(isCreateDialogOpen)
    {
      call := UpdateCall(settingId, editValue);
      editingId := None;
      editValue := "";
    }

    /** `handleCancel`: the editor closes without an update call. */
    method HandleCancel()
      modifies this
      ensures editingId.None? && editValue == "" && isCreateDialogOpen == old(isCreateDialogOpen)
    {
      editingId := None;
      editValue := "";
    }

    /** `handleCreateSubmit`: `onCreateSetting` gets the payload and the dialog closes. */
    method HandleCreateSubmit(form: SettingForm) returns (payload: SettingPatch)
      modifies this
      ensures payload == CreatePayload(form) && !isCreateDialogOpen
      ensures editingId == old(editingId) && editValue == old(editValue)
    {
      payload := CreatePayload(form);
      isCreateDialogOpen := false;
    }
  }

  /** Editing a row and saving without typing stores its own value back. */
  lemma SaveWithoutTypingKeepsValue(settings: seq<SystemSetting>, i: nat, now: int)
    requires i < |settings|
    ensures UpdatedSettings(settings, settings[i].id, settings[i].value, now)[i].value == settings[i].value
  {
  }
}
