/**
 * The admin's system page (app/system/page.tsx): it holds the system settings, rewrites the
 * value of one and appends new ones.
 */
module SystemPage {
  import opened Wrappers
  import opened Types

  const AdminUser := "Admin User"

  /** `Partial<SystemSettings>` as far as the create handler reads it. */
  datatype SettingPatch = SettingPatch(
    category: Option<SettingCategory>,
    key: Option<string>,
    value: Option<string>,
    description: Option<string>,
    valueType: Option<SettingType>)

  predicate CreatableFrom(data: SettingPatch)
  {
    data.category.Some? && data.key.Some? && data.value.Some? && data.description.Some? && data.valueType.Some?
  }

  function NewSetting(newId: string, now: int, data: SettingPatch): (s: SystemSetting)
    requires CreatableFrom(data)
    ensures s.updatedBy == AdminUser && s.updatedAt == now
  {
    SystemSetting(newId, data.category.value, data.key.value, data.value.value, data.description.value,
                  data.valueType.value, now, AdminUser)
  }

  /** The settings with id `settingId` take the new value, the time and the admin's name;
      every other setting is kept. */
  function UpdatedSettings(settings: seq<SystemSetting>, settingId: string, value: string, now: int): (r: seq<SystemSetting>)
    ensures |r| == |settings|
    ensures forall i :: 0 <= i < |settings| ==>
      r[i] == if settings[i].id == settingId
              then settings[i].(value := value, updatedAt := now, updatedBy := AdminUser)
              else settings[i]
  {
    seq(|settings|, i requires 0 <= i < |settings| =>
      if settings[i].id == settingId
      then settings[i].(value := value, updatedAt := now, updatedBy := AdminUser)
      else settings[i])
  }

  /** An update never changes what a setting is (id, category, key, description, type), and
      an absent id changes nothing. */
  lemma UpdateKeepsSettingIdentity(settings: seq<SystemSetting>, settingId: string, value: string, now: int)
    ensures forall i :: 0 <= i < |settings| ==>
      var s, t := settings[i], UpdatedSettings(settings, settingId, value, now)[i];
      t.id == s.id && t.category == s.category && t.key == s.key && t.description == s.description
      && t.valueType == s.valueType
    ensures (forall i :: 0 <= i < |settings| ==> settings[i].id != settingId) ==>
      UpdatedSettings(settings, settingId, value, now) == settings
  {
  }

  class SystemPageState {
    var settings: seq<SystemSetting>

    constructor(initial: seq<SystemSetting>)
      ensures settings == initial
    {
      settings := initial;
    }

    /** `handleUpdateSetting`. */
    method UpdateSetting(settingId: string, value: string, now: int)
      modifies this
      ensures settings == UpdatedSettings(old(settings), settingId, value, now)
    {
      settings := UpdatedSettings(settings, settingId, value, now);
    }

    /** `handleCreateSetting`; `newId` and `now` stand for the timestamp-based id and date. */
    method CreateSetting(newId: string, now: int, data: SettingPatch)
      requires CreatableFrom(data)
      modifies this
      ensures settings == old(settings) + [NewSetting(newId, now, data)]
    {
      settings := settings + [NewSetting(newId, now, data)];
    }
  }
}
