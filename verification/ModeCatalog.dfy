/** The catalog of modes and the mutations that edit it: documents, validation, and which presets an edit changes. */
module ModeCatalog {
  import opened Common

  /** A floating-point number as far as validation looks at it. */
  datatype Float = Finite(value: real) | NotFinite

  /** Documents keep only the fields validation and publication read; `body` stands for the rest. */
  datatype Soundboard = Soundboard(id: Option<string>, itemFiles: seq<string>, body: nat)
  datatype CueLoop = CueLoop(interval: Float, volume: Float)
  datatype Cue = Cue(id: Option<string>, sfxVolumes: seq<Float>, loops: seq<CueLoop>, body: nat)
  datatype Preset = Preset(id: Option<string>, effectTypes: seq<string>, crossfadeMs: Option<nat>, body: nat)
  datatype Manifest = Manifest(id: string, defaultSoundboard: Option<string>, duckTo: seq<Option<Float>>,
      multipleOutputs: bool, body: nat)

  datatype Bundle = Bundle(manifest: Manifest, soundboards: map<string, Soundboard>, cues: map<string, Cue>,
                           presets: map<string, Preset>, themeCss: Option<string>)

  type Modes = map<string, Bundle>

  datatype Mutation =
    | CreateMode(expectedGeneration: u64, manifest: Manifest)
    | DeleteMode(expectedGeneration: u64, modeId: string)
    | PutManifest(expectedGeneration: u64, modeId: string, manifest: Manifest)
    | PutSoundboard(expectedGeneration: u64, modeId: string, soundboardId: string, soundboard: Soundboard,
        createOnly: bool)
    | DeleteSoundboard(expectedGeneration: u64, modeId: string, soundboardId: string)
    | PutCue(expectedGeneration: u64, modeId: string, cueId: string, cue: Cue, createOnly: bool)
    | DeleteCue(expectedGeneration: u64, modeId: string, cueId: string)
    | PutPreset(expectedGeneration: u64, modeId: string, presetId: string, preset: Preset, createOnly: bool)
    | DeletePreset(expectedGeneration: u64, modeId: string, presetId: string)
    | ImportResources(expectedGeneration: u64, modeId: string, manifest: Manifest, soundboards: map<string, Soundboard>,
                      cues: map<string, Cue>, presets: map<string, Preset>)

  datatype Failure = Stale | Invalid | NotFound | Conflict | Unavailable

  function TargetMode(m: Mutation): string {
    if m.CreateMode? then m.manifest.id else m.modeId
  }

  // ----- validation -----

  predicate IsSlugStart(c: char) {
    'a' <= c <= 'z' || '0' <= c <= '9'
  }

  predicate IsSlug(s: string) {
    && 1 <= |s| <= 64 && IsSlugStart(s[0])
    && forall i :: 1 <= i < |s| ==> IsSlugStart(s[i]) || s[i] == '-' || s[i] == '_'
  }

  predicate InRange(f: Float, low: real, high: real) {
    f.Finite? && low <= f.value <= high
  }

  predicate ValidManifest(m: Manifest, soundboards: map<string, Soundboard>) {
    && IsSlug(m.id)
    && (m.defaultSoundboard.Some? ==> m.defaultSoundboard.value in soundboards)
    && forall i :: 0 <= i < |m.duckTo| ==> (m.duckTo[i].Some? ==> InRange(m.duckTo[i].value, 0.0, 1.0))
  }

  predicate ValidSoundboard(id: string, s: Soundboard) {
    s.id == Some(id)
  }

  predicate ValidCue(id: string, c: Cue) {
    && c.id == Some(id)
    && (forall i :: 0 <= i < |c.sfxVolumes| ==> InRange(c.sfxVolumes[i], 0.0, 1.0))
    && forall i :: 0 <= i < |c.loops| ==>
       InRange(c.loops[i].volume, 0.0, 1.0) && InRange(c.loops[i].interval, 1.0, 3600.0)
  }

  const EFFECT_TYPES := {"eq", "reverb", "lowpass", "highpass", "bandpass", "delay", "distortion", "tremolo"}

  predicate ValidPreset(id: string, p: Preset) {
    && p.id == Some(id)
    && (p.crossfadeMs.Some? ==> p.crossfadeMs.value <= 60_000)
    && forall i :: 0 <= i < |p.effectTypes| ==> p.effectTypes[i] in EFFECT_TYPES
  }

  // ----- editing -----

  function Put<D>(resources: map<string, D>, id: string, document: D, createOnly: bool)
    : Result<map<string, D>, Failure> {
    if createOnly && id in resources then Err(Conflict)
    else if !createOnly && id !in resources then Err(NotFound)
    else Ok(resources[id := document])
  }

  function Remove<D>(resources: map<string, D>, id: string): Result<map<string, D>, Failure> {
    if id in resources then Ok(resources - {id}) else Err(NotFound)
  }

  function Find(modes: Modes, id: string): Result<Bundle, Failure> {
    if id in modes then Ok(modes[id]) else Err(NotFound)
  }

  function Require(holds: bool): Result<(), Failure> {
    if holds then Ok(()) else Err(Invalid)
  }

  predicate Overlap<D>(a: map<string, D>, b: map<string, D>) {
    exists k :: k in a && k in b
  }

  /** The bundle of an existing mode after a mutation of it. */
  function EditedBundle(mode: Bundle, m: Mutation): Result<Bundle, Failure>
    requires !m.CreateMode? && !m.DeleteMode?
  {
    match m
    case PutManifest(_, _, manifest) =>
      var _ :- Require(ValidManifest(manifest, mode.soundboards));
      Ok(mode.(manifest := manifest))
    case PutSoundboard(_, _, id, document, createOnly) =>
      var soundboards :- Put(mode.soundboards, id, document, createOnly);
      Ok(mode.(soundboards := soundboards))
    case DeleteSoundboard(_, _, id) =>
      if mode.manifest.defaultSoundboard == Some(id) then Err(Conflict)
      else
        var soundboards :- Remove(mode.soundboards, id);
        Ok(mode.(soundboards := soundboards))
    case PutCue(_, _, id, document, createOnly) =>
      var cues :- Put(mode.cues, id, document, createOnly);
      Ok(mode.(cues := cues))
    case DeleteCue(_, _, id) =>
      var cues :- Remove(mode.cues, id);
      Ok(mode.(cues := cues))
    case PutPreset(_, _, id, document, createOnly) =>
      var presets :- Put(mode.presets, id, document, createOnly);
      Ok(mode.(presets := presets))
    case DeletePreset(_, _, id) =>
      var presets :- Remove(mode.presets, id);
      Ok(mode.(presets := presets))
    case ImportResources(_, _, manifest, soundboards, cues, presets) =>
      if Overlap(soundboards, mode.soundboards) || Overlap(cues, mode.cues) || Overlap(presets, mode.presets) then
          Err(Conflict)
      else
        var _ :- Require((forall k :: k in soundboards ==> IsSlug(k) && ValidSoundboard(k, soundboards[k]))
                         && (forall k :: k in cues ==> ValidCue(k, cues[k]))
                         && (forall k :: k in presets ==> ValidPreset(k, presets[k])));
        var _ :- Require(ValidManifest(manifest, mode.soundboards + soundboards));
        Ok(mode.(manifest := manifest, soundboards := mode.soundboards + soundboards, cues := mode.cues + cues,
                 presets := mode.presets + presets))
  }

  /** What is checked before the mode is looked up. */
  predicate WellStated(m: Mutation) {
    && IsSlug(TargetMode(m))
    && match m
       case CreateMode(_, manifest) => ValidManifest(manifest, map[])
       case DeleteMode(_, _) => true
       case PutManifest(_, modeId, manifest) => manifest.id == modeId
       case PutSoundboard(_, _, id, document, _) => IsSlug(id) && ValidSoundboard(id, document)
       case DeleteSoundboard(_, _, id) => IsSlug(id)
       case PutCue(_, _, id, document, _) => IsSlug(id) && ValidCue(id, document)
       case DeleteCue(_, _, id) => IsSlug(id)
       case PutPreset(_, _, id, document, _) => IsSlug(id) && ValidPreset(id, document)
       case DeletePreset(_, _, id) => IsSlug(id)
       case ImportResources(_, modeId, manifest, _, _, _) => manifest.id == modeId
  }

  function ApplyCatalogMutation(modes: Modes, m: Mutation): Result<Modes, Failure> {
    var _ :- Require(WellStated(m));
    match m
    case CreateMode(_, manifest) =>
      if manifest.id in modes then Err(Conflict)
      else Ok(modes[manifest.id := Bundle(manifest, map[], map[], map[], None)])
    case DeleteMode(_, modeId) => Remove(modes, modeId)
    case _ =>
      var mode :- Find(modes, m.modeId);
      var edited :- EditedBundle(mode, m);
      Ok(modes[m.modeId := edited])
  }

  // ----- well-formed catalogs -----

  predicate WellFormedBundle(id: string, b: Bundle) {
    && b.manifest.id == id && ValidManifest(b.manifest, b.soundboards)
    && (forall k :: k in b.soundboards ==> IsSlug(k) && ValidSoundboard(k, b.soundboards[k]))
    && (forall k :: k in b.cues ==> ValidCue(k, b.cues[k]))
    && (forall k :: k in b.presets ==> ValidPreset(k, b.presets[k]))
  }

  predicate WellFormed(modes: Modes) {
    forall id :: id in modes ==> WellFormedBundle(id, modes[id])
  }

  lemma EditKeepsBundle(mode: Bundle, m: Mutation)
    requires !m.CreateMode? && !m.DeleteMode? && WellStated(m) && WellFormedBundle(m.modeId, mode) &&
             EditedBundle(mode, m).Ok?
    ensures WellFormedBundle(m.modeId, EditedBundle(mode, m).value)
  {
  }

  /** Every accepted mutation keeps the catalog well-formed: ids equal their keys, a default soundboard exists, ranges
      hold. */
  lemma MutationKeepsWellFormed(modes: Modes, m: Mutation)
    requires WellFormed(modes) && ApplyCatalogMutation(modes, m).Ok?
    ensures WellFormed(ApplyCatalogMutation(modes, m).value)
  {
    if !m.CreateMode? && !m.DeleteMode? {
      EditKeepsBundle(modes[m.modeId], m);
    }
  }

  /** Apply mutations in turn, passing over those that are refused. */
  function ApplyAll(modes: Modes, ms: seq<Mutation>): Modes {
    if ms == [] then modes
    else
      var before := ApplyAll(modes, ms[..|ms| - 1]);
      match ApplyCatalogMutation(before, ms[|ms| - 1])
      case Ok(after) => after
      case Err(_) => before
  }

  lemma {:induction false} MutationsKeepWellFormed(modes: Modes, ms: seq<Mutation>)
    requires WellFormed(modes)
    ensures WellFormed(ApplyAll(modes, ms))
    decreases |ms|
  {
    if ms != [] {
      var before := ApplyAll(modes, ms[..|ms| - 1]);
      MutationsKeepWellFormed(modes, ms[..|ms| - 1]);
      if ApplyCatalogMutation(before, ms[|ms| - 1]).Ok? {
        MutationKeepsWellFormed(before, ms[|ms| - 1]);
      }
    }
  }

  /** A mutation touches its target mode only, and it is there afterwards unless the mutation deletes it. */
  lemma OnlyTargetChanges(modes: Modes, m: Mutation)
    requires ApplyCatalogMutation(modes, m).Ok?
    ensures var after, target := ApplyCatalogMutation(modes, m).value, TargetMode(m);
            && after - {target} == modes - {target}
            && (target in after <==> !m.DeleteMode?)
            && (target in modes <==> !m.CreateMode?)
  {
  }

  // ----- undoing -----

  /** Creating a resource and deleting it again leaves the catalog as it was. */
  lemma CreateThenDelete(modes: Modes, m: Mutation, generation: u64)
    requires ApplyCatalogMutation(modes, m).Ok?
    ensures var after := ApplyCatalogMutation(modes, m).value;
            match m
            case CreateMode(_, manifest) =>
                ApplyCatalogMutation(after, DeleteMode(generation, manifest.id)) == Ok(modes)
            case PutCue(_, mode, id, _, true) =>
                ApplyCatalogMutation(after, DeleteCue(generation, mode, id)) == Ok(modes)
            case PutPreset(_, mode, id, _, true) =>
                ApplyCatalogMutation(after, DeletePreset(generation, mode, id)) == Ok(modes)
            case _ => true
  {
    var after := ApplyCatalogMutation(modes, m).value;
    match m
    case CreateMode(_, manifest) =>
      assert after - {manifest.id} == modes;
    case PutCue(_, mode, id, _, true) =>
      assert after[mode].cues - {id} == modes[mode].cues;
      assert after[mode := modes[mode]] == modes;
    case PutPreset(_, mode, id, _, true) =>
      assert after[mode].presets - {id} == modes[mode].presets;
      assert after[mode := modes[mode]] == modes;
    case _ =>
  }

  /** A new soundboard can be deleted again exactly when the manifest does not already name it as the default. */
  lemma CreateThenDeleteSoundboard(modes: Modes, m: Mutation, generation: u64)
    requires m.PutSoundboard? && m.createOnly && ApplyCatalogMutation(modes, m).Ok?
    ensures var after := ApplyCatalogMutation(modes, m).value;
            var undone := ApplyCatalogMutation(after, DeleteSoundboard(generation, m.modeId, m.soundboardId));
            if modes[m.modeId].manifest.defaultSoundboard == Some(m.soundboardId) then undone == Err(Conflict)
                else undone == Ok(modes)
    ensures WellFormed(modes) ==> modes[m.modeId].manifest.defaultSoundboard != Some(m.soundboardId)
  {
    var after := ApplyCatalogMutation(modes, m).value;
    assert after[m.modeId].soundboards - {m.soundboardId} == modes[m.modeId].soundboards;
    assert after[m.modeId := modes[m.modeId]] == modes;
  }

  // ----- slugs -----

  predicate SlugBundle(b: Bundle) {
    && (forall k :: k in b.soundboards ==> IsSlug(k))
    && (forall k :: k in b.cues ==> IsSlug(k))
    && (forall k :: k in b.presets ==> IsSlug(k))
  }

  predicate SlugKeys(modes: Modes) {
    forall id :: id in modes ==> SlugBundle(modes[id])
  }

  predicate ImportsSlugs(m: Mutation) {
    m.ImportResources? ==> (forall k :: k in m.cues ==> IsSlug(k)) && (forall k :: k in m.presets ==> IsSlug(k))
  }

  lemma ImportedKeysStay(modes: Modes, m: Mutation)
    requires m.ImportResources? && ApplyCatalogMutation(modes, m).Ok? && SlugKeys(ApplyCatalogMutation(modes, m).value)
    ensures ImportsSlugs(m)
  {
    var after := ApplyCatalogMutation(modes, m).value[m.modeId];
    assert forall k :: k in m.cues ==> k in after.cues;
    assert forall k :: k in m.presets ==> k in after.presets;
  }

  lemma EditKeepsSlugs(mode: Bundle, m: Mutation)
    requires !m.CreateMode? && !m.DeleteMode? && WellStated(m) && SlugBundle(mode) && ImportsSlugs(m) &&
             EditedBundle(mode, m).Ok?
    ensures SlugBundle(EditedBundle(mode, m).value)
  {
  }

  /** Resource ids stay file-system slugs under every mutation but an import, which checks those of soundboards only. */
  lemma SlugsKeptExactly(modes: Modes, m: Mutation)
    requires SlugKeys(modes) && ApplyCatalogMutation(modes, m).Ok?
    ensures SlugKeys(ApplyCatalogMutation(modes, m).value) <==> ImportsSlugs(m)
  {
    if m.ImportResources? && SlugKeys(ApplyCatalogMutation(modes, m).value) {
      ImportedKeysStay(modes, m);
    }
    if ImportsSlugs(m) && !m.CreateMode? && !m.DeleteMode? {
      EditKeepsSlugs(modes[m.modeId], m);
    }
  }

  function ImportCue(modes: Modes, modeId: string, id: string, body: nat): Mutation
    requires modeId in modes
  {
    ImportResources(0, modeId, modes[modeId].manifest, map[], map[id := Cue(Some(id), [], [], body)], map[])
  }

  /** Into any mode of a well-formed catalog a cue can be imported under any new id, slug or not. */
  lemma ImportTakesAnyCueId(modes: Modes, modeId: string, id: string, body: nat)
    requires WellFormed(modes) && modeId in modes && id !in modes[modeId].cues
    ensures var after := ApplyCatalogMutation(modes, ImportCue(modes, modeId, id, body));
            after.Ok? && modeId in after.value && id in after.value[modeId].cues &&
                (!IsSlug(id) ==> !SlugKeys(after.value))
  {
    var m := ImportCue(modes, modeId, id, body);
    assert WellFormedBundle(modeId, modes[modeId]);
    assert modes[modeId].soundboards + map[] == modes[modeId].soundboards;
    assert EditedBundle(modes[modeId], m).Ok?;
    assert id in EditedBundle(modes[modeId], m).value.cues;
  }

  // ----- changed presets -----

  datatype PresetKey = PresetKey(modeId: string, presetId: string)

  function PresetAt(modes: Modes, key: PresetKey): Option<Preset> {
    if key.modeId in modes && key.presetId in modes[key.modeId].presets then
        Some(modes[key.modeId].presets[key.presetId]) else None
  }

  function PresetIds(modes: Modes, modeId: string): set<string> {
    if modeId in modes then modes[modeId].presets.Keys else {}
  }

  /** Every (mode, preset) whose document differs; nothing counts as changed by the first catalog. */
  predicate IsChanged(current: Option<Modes>, next: Modes, key: PresetKey) {
    current.Some? && PresetAt(current.value, key) != PresetAt(next, key)
  }

  ghost function ChangedKeys(current: Option<Modes>, next: Modes): set<PresetKey> {
    if current.None? then {}
    else
      set modeId, presetId | modeId in current.value.Keys + next.Keys
                             && presetId in PresetIds(current.value, modeId) + PresetIds(next, modeId)
                             && IsChanged(current, next, PresetKey(modeId, presetId)) :: PresetKey(modeId, presetId)
  }

  lemma ChangedKeysExactly(current: Option<Modes>, next: Modes)
    ensures forall k :: k in ChangedKeys(current, next) <==> IsChanged(current, next, k)
  {
    forall k | IsChanged(current, next, k) ensures k in ChangedKeys(current, next) {
      assert k == PresetKey(k.modeId, k.presetId);
    }
  }

  method ChangedInMode(current: Modes, next: Modes, modeId: string, found: set<PresetKey>)
    returns (keys: set<PresetKey>)
    ensures forall k :: k in keys <==> k in found || (k.modeId == modeId && IsChanged(Some(current), next, k))
  {
    keys := found;
    var rest := PresetIds(current, modeId) + PresetIds(next, modeId);
    while rest != {}
      invariant rest <= PresetIds(current, modeId) + PresetIds(next, modeId)
      invariant forall k :: k in keys <==>
                k in found || (k.modeId == modeId && k.presetId !in rest && IsChanged(Some(current), next, k))
    {
      var presetId :| presetId in rest;
      var key := PresetKey(modeId, presetId);
      if PresetAt(current, key) != PresetAt(next, key) {
        keys := keys + {key};
      }
      rest := rest - {presetId};
    }
  }

  method ChangedPresets(current: Option<Modes>, next: Modes) returns (keys: set<PresetKey>)
    ensures forall k :: k in keys <==> IsChanged(current, next, k)
    ensures keys == ChangedKeys(current, next)
  {
    ChangedKeysExactly(current, next);
    keys := {};
    if current.None? {
      return;
    }
    var rest := current.value.Keys + next.Keys;
    while rest != {}
      invariant forall k :: k in keys <==> k.modeId !in rest && IsChanged(current, next, k)
    {
      var modeId :| modeId in rest;
      keys := ChangedInMode(current.value, next, modeId, keys);
      rest := rest - {modeId};
    }
  }

  /** Which presets a mutation may change: the one it names, those it imports, or those of the mode it deletes. */
  predicate MayChange(modes: Modes, m: Mutation, key: PresetKey) {
    && key.modeId == TargetMode(m)
    && match m
       case PutPreset(_, _, id, _, _) => key.presetId == id
       case DeletePreset(_, _, id) => key.presetId == id
       case ImportResources(_, _, _, _, _, presets) => key.presetId in presets
       case DeleteMode(_, modeId) => key.presetId in PresetIds(modes, modeId)
       case _ => false
  }

  /** A mutation changes exactly the presets it may change, except a preset put back as it was. */
  lemma MutationChangesPresets(modes: Modes, m: Mutation, key: PresetKey)
    requires ApplyCatalogMutation(modes, m).Ok?
    ensures IsChanged(Some(modes), ApplyCatalogMutation(modes, m).value, key) <==>
            MayChange(modes, m, key) && !(m.PutPreset? && PresetAt(modes, key) == Some(m.preset))
  {
    var after := ApplyCatalogMutation(modes, m).value;
    if key.modeId != TargetMode(m) {
      OnlyTargetChanges(modes, m);
      assert key.modeId in modes <==> key.modeId in modes - {TargetMode(m)};
      assert key.modeId in after <==> key.modeId in after - {TargetMode(m)};
    }
  }
}
