/** What each mutation of the mode catalog does to the mode it names, and exactly what it is refused for. */
module ModeEdits {
  import opened Common
  import opened ModeCatalog

  /** The document stands under the id, and every other id has what it had. */
  ghost predicate IsPut<D>(before: map<string, D>, after: map<string, D>, id: string, document: D) {
    && after.Keys == before.Keys + {id} && after[id] == document
    && forall k :: k in before && k != id ==> after[k] == before[k]
  }

  /** Nothing stands under the id, and every other id has what it had. */
  ghost predicate IsRemoved<D>(before: map<string, D>, after: map<string, D>, id: string) {
    after.Keys == before.Keys - {id} && forall k :: k in after ==> after[k] == before[k]
  }

  ghost predicate IsMerged<D>(before: map<string, D>, added: map<string, D>, after: map<string, D>) {
    && after.Keys == before.Keys + added.Keys && before.Keys !! added.Keys
    && (forall k :: k in before ==> after[k] == before[k]) && (forall k :: k in added ==> after[k] == added[k])
  }

  /** Of a mode, only these parts may differ. */
  predicate OnlyResources(b: Bundle, a: Bundle) {
    a == b.(soundboards := a.soundboards, cues := a.cues, presets := a.presets)
  }

  /** What an accepted edit of a mode does to it. */
  lemma EditDoesWhatItSays(mode: Bundle, m: Mutation)
    requires !m.CreateMode? && !m.DeleteMode? && EditedBundle(mode, m).Ok?
    ensures var a := EditedBundle(mode, m).value;
            match m
            case PutManifest(_, _, manifest) => a == mode.(manifest := manifest)
            case PutSoundboard(_, _, id, document, _) =>
              a == mode.(soundboards := a.soundboards) && IsPut(mode.soundboards, a.soundboards, id, document)
            case DeleteSoundboard(_, _, id) =>
              a == mode.(soundboards := a.soundboards) && IsRemoved(mode.soundboards, a.soundboards, id)
            case PutCue(_, _, id, document, _) =>
              a == mode.(cues := a.cues) && IsPut(mode.cues, a.cues, id, document)
            case DeleteCue(_, _, id) => a == mode.(cues := a.cues) && IsRemoved(mode.cues, a.cues, id)
            case PutPreset(_, _, id, document, _) =>
              a == mode.(presets := a.presets) && IsPut(mode.presets, a.presets, id, document)
            case DeletePreset(_, _, id) => a == mode.(presets := a.presets) && IsRemoved(mode.presets, a.presets, id)
            case ImportResources(_, _, manifest, soundboards, cues, presets) =>
              && OnlyResources(mode.(manifest := manifest), a)
              && IsMerged(mode.soundboards, soundboards, a.soundboards)
              && IsMerged(mode.cues, cues, a.cues) && IsMerged(mode.presets, presets, a.presets)
  {
  }

  /** A new mode has its manifest and nothing else; a deleted one is gone; an edited one is what the edit says. */
  lemma MutationDoesWhatItSays(modes: Modes, m: Mutation)
    requires ApplyCatalogMutation(modes, m).Ok?
    ensures var after := ApplyCatalogMutation(modes, m).value;
            match m
            case CreateMode(_, manifest) =>
              IsPut(modes, after, manifest.id, Bundle(manifest, map[], map[], map[], None))
            case DeleteMode(_, modeId) => IsRemoved(modes, after, modeId)
            case _ =>
              && m.modeId in modes && EditedBundle(modes[m.modeId], m).Ok?
              && IsPut(modes, after, m.modeId, EditedBundle(modes[m.modeId], m).value)
  {
  }

  /** What is put anew must not be there yet, what is put otherwise must be. */
  function PutError<D>(resources: map<string, D>, id: string, createOnly: bool): Option<Failure> {
    if (id in resources) == createOnly then Some(if createOnly then Conflict else NotFound) else None
  }

  function Missing<D>(resources: map<string, D>, id: string): Option<Failure> {
    if id in resources then None else Some(NotFound)
  }

  /** What the resource a mutation names is refused for, in a mode that is there. */
  function ResourceError(mode: Bundle, m: Mutation): Option<Failure> {
    match m
    case PutSoundboard(_, _, id, _, createOnly) => PutError(mode.soundboards, id, createOnly)
    case PutCue(_, _, id, _, createOnly) => PutError(mode.cues, id, createOnly)
    case PutPreset(_, _, id, _, createOnly) => PutError(mode.presets, id, createOnly)
    case DeleteSoundboard(_, _, id) =>
      if mode.manifest.defaultSoundboard == Some(id) then Some(Conflict) else Missing(mode.soundboards, id)
    case DeleteCue(_, _, id) => Missing(mode.cues, id)
    case DeletePreset(_, _, id) => Missing(mode.presets, id)
    case _ => None
  }

  /** The manifests and documents a mutation brings, seen against the mode they go into. */
  predicate FitsMode(mode: Bundle, m: Mutation) {
    match m
    case PutManifest(_, _, manifest) => ValidManifest(manifest, mode.soundboards)
    case ImportResources(_, _, manifest, soundboards, cues, presets) =>
      && (forall k :: k in soundboards ==> IsSlug(k) && ValidSoundboard(k, soundboards[k]))
      && (forall k :: k in cues ==> ValidCue(k, cues[k]))
      && (forall k :: k in presets ==> ValidPreset(k, presets[k]))
      && ValidManifest(manifest, mode.soundboards + soundboards)
    case _ => true
  }

  ghost predicate ImportsExisting(mode: Bundle, m: Mutation) {
    m.ImportResources? &&
    !(mode.soundboards.Keys !! m.soundboards.Keys && mode.cues.Keys !! m.cues.Keys &&
        mode.presets.Keys !! m.presets.Keys)
  }

  lemma OverlapExactly<D>(a: map<string, D>, b: map<string, D>)
    ensures Overlap(a, b) <==> !(b.Keys !! a.Keys)
  {
    if Overlap(a, b) {
      var k :| k in a && k in b;
      assert k in b.Keys * a.Keys;
    }
    if b.Keys * a.Keys != {} {
      var k :| k in b.Keys * a.Keys;
      assert k in a && k in b;
    }
  }

  /** Exactly which mutations are accepted, and what the others are refused for. */
  lemma RefusedExactly(modes: Modes, m: Mutation)
    ensures var r := ApplyCatalogMutation(modes, m); var target := TargetMode(m);
            if !WellStated(m) then r == Err(Invalid)
            else if m.CreateMode? then (if target in modes then r == Err(Conflict) else r.Ok?)
            else if target !in modes then r == Err(NotFound)
            else if m.DeleteMode? then r.Ok?
            else if ResourceError(modes[target], m).Some? then r == Err(ResourceError(modes[target], m).value)
            else if ImportsExisting(modes[target], m) then r == Err(Conflict)
            else if !FitsMode(modes[target], m) then r == Err(Invalid)
            else r.Ok?
  {
    if m.ImportResources? && m.modeId in modes {
      OverlapExactly(m.soundboards, modes[m.modeId].soundboards);
      OverlapExactly(m.cues, modes[m.modeId].cues);
      OverlapExactly(m.presets, modes[m.modeId].presets);
    }
  }
}
