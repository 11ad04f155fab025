/** The single-resume store: the current resume and its template settings,
    each a state cell that its operations overwrite and write through to its
    `localStorage` key (`resume_builder_data`, `resume_builder_settings`). */
module ResumeStorage {
  import opened ResumeTypes
  import opened LocalStorage

  class ResumeStore {
    var resumeData: ResumeData
    var settings: TemplateSettings
    var isLoaded: bool
    /** What the two keys hold. */
    var dataSlot: Slot<ResumeData>
    var settingsSlot: Slot<TemplateSettings>

    /** Both cells agree with their keys. */
    ghost predicate Synced()
      reads this
    {
      SlotSynced(dataSlot, resumeData, DefaultResumeData) && SlotSynced(settingsSlot, settings, DefaultSettings)
    }

    /** The hook's initial state, over whatever the keys hold. */
    constructor (storedData: Slot<ResumeData>, storedSettings: Slot<TemplateSettings>)
      ensures dataSlot == storedData && settingsSlot == storedSettings
      ensures resumeData == DefaultResumeData && settings == DefaultSettings && !isLoaded
    {
      dataSlot, settingsSlot := storedData, storedSettings;
      resumeData, settings, isLoaded := DefaultResumeData, DefaultSettings, false;
    }

    /** The mount effect: both keys are read; a present key sets its cell,
      a resume key that fails to parse leaves both cells as they are, and a
      settings key that fails to parse leaves the settings. The store is
      loaded either way. */
    method Load()
      modifies this`resumeData, this`settings, this`isLoaded
      ensures isLoaded
      ensures resumeData == ReadBack(dataSlot, old(resumeData))
      ensures settings == if dataSlot.Malformed? then old(settings) else ReadBack(settingsSlot, old(settings))
      ensures old(Synced()) ==> Synced()
    {
      if !dataSlot.Malformed? {
        resumeData := ReadBack(dataSlot, resumeData);
        settings := ReadBack(settingsSlot, settings);
      }
      isLoaded := true;
    }

    /** `saveResumeData(data)`. */
    method SaveResumeData(data: ResumeData)
      modifies this`resumeData, this`dataSlot
      ensures resumeData == data && dataSlot == Stored(data)
      ensures old(Synced()) ==> Synced()
    {
      resumeData, dataSlot := data, Stored(data);
    }

    /** `saveSettings(settings)`. */
    method SaveSettings(newSettings: TemplateSettings)
      modifies this`settings, this`settingsSlot
      ensures settings == newSettings && settingsSlot == Stored(newSettings)
      ensures old(Synced()) ==> Synced()
    {
      settings, settingsSlot := newSettings, Stored(newSettings);
    }

    /** `updateSection(section, value)`: exactly the named section of the
      resume changes, and the result is saved. */
    method UpdateSection(s: Section)
      modifies this`resumeData, this`dataSlot
      ensures GetSection(resumeData, KeyOf(s)) == s
      ensures forall k :: k != KeyOf(s) ==> GetSection(resumeData, k) == GetSection(old(resumeData), k)
      ensures dataSlot == Stored(resumeData)
      ensures old(Synced()) ==> Synced()
    {
      SaveResumeData(WithSection(resumeData, s));
    }

    /** `clearAllData()`: both cells back to their defaults, both keys
      removed. */
    method ClearAllData()
      modifies this`resumeData, this`settings, this`dataSlot, this`settingsSlot
      ensures resumeData == DefaultResumeData && settings == DefaultSettings
      ensures dataSlot == Absent && settingsSlot == Absent
      ensures old(Synced()) ==> Synced()
    {
      resumeData, settings := DefaultResumeData, DefaultSettings;
      dataSlot, settingsSlot := Absent, Absent;
    }
  }

  /** A page reload: a new store over the same keys, loaded. When the old
      store's cells agree with the keys, the new one has the same state. */
  method Reload(s: ResumeStore) returns (t: ResumeStore)
    requires s.Synced()
    ensures t.resumeData == s.resumeData && t.settings == s.settings && t.isLoaded
    ensures t.dataSlot == s.dataSlot && t.settingsSlot == s.settingsSlot
    ensures t.Synced()
  {
    t := new ResumeStore(s.dataSlot, s.settingsSlot);
    t.Load();
  }
}
