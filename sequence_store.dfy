/**
 * The editable animation script (`addToSequence`, `removeFromSequence`, `clearSequence`,
 * `resetToDefault`, `updateRotationValue`, `updateScaleValue`).
 *
 * The script holds objects by reference. `resetToDefault` copies only the array, so after a reset
 * the script's object entries ARE the objects of the built-in default, and an edit of such an entry
 * edits the default itself. The model keeps that sharing: an entry is either a reference to slot
 * `i` of the default or an object of its own, and the default's slots are state that edits change.
 */
module SequenceStore {
  import opened Wrappers
  import opened Actions

  /** One element of the script array. */
  datatype Entry =
    | Shared(slot: nat)     // the object at this index of the built-in default
    | Own(action: Action)   // an entry made by `addToSequence`

  /** The script together with the current contents of the default's objects. */
  datatype StoreState = StoreState(defaults: seq<Action>, entries: seq<Entry>)

  /** Two actions of the same kind: a rotation about the same axis, a scale, or the same bounce or
      bare string. Edits change a rotation's degrees or a scale's target and nothing else. */
  predicate SameKind(a: Action, b: Action) {
    match a
    case Rotate(axis, _) => b.Rotate? && b.axis == axis
    case Scale(_) => b.Scale?
    case _ => a == b
  }

  /** An action `addToSequence` or the default can put in the script: a bare string never reads as
      one of the object kinds. */
  predicate Producible(a: Action) {
    a.Named? ==> !("rotate" <= a.name) && a.name != "scale" && a.name != "bounce"
  }

  /** The invariant every reachable store keeps: the default keeps its seven entries and their kinds,
      references point into the default, no slot is referenced twice, and every action is one the
      program can produce. */
  predicate Valid(s: StoreState) {
    && |s.defaults| == |DEFAULT_SEQUENCE|
    && (forall i :: 0 <= i < |s.defaults| ==> SameKind(s.defaults[i], DEFAULT_SEQUENCE[i]))
    && (forall i :: 0 <= i < |s.entries| && s.entries[i].Shared? ==> s.entries[i].slot < |s.defaults|)
    && (forall i, j :: 0 <= i < j < |s.entries| && s.entries[i].Shared? && s.entries[j].Shared? ==>
          s.entries[i].slot != s.entries[j].slot)
    && (forall i :: 0 <= i < |s.entries| && s.entries[i].Own? ==> Producible(s.entries[i].action))
  }

  /** The action an entry stands for. */
  function Resolve(defaults: seq<Action>, e: Entry): Action
    requires e.Shared? ==> e.slot < |defaults|
  {
    match e
    case Shared(slot) => defaults[slot]
    case Own(a) => a
  }

  /** The script as the engine reads it. */
  function Contents(s: StoreState): (c: seq<Action>)
    requires Valid(s)
    ensures |c| == |s.entries|
  {
    seq(|s.entries|, i requires 0 <= i < |s.entries| => Resolve(s.defaults, s.entries[i]))
  }

  /** The store at page load, before the builder's initial reset: an empty script. */
  const INITIAL: StoreState := StoreState(DEFAULT_SEQUENCE, [])

  /** The entry `addToSequence(name)` pushes: a name starting with `rotate` makes a full turn about
      the axis its last character names, `scale` a scale to 1, `bounce` a five-second bounce, and any
      other name is pushed as the bare string. */
  function Added(name: string): Action {
    if "rotate" <= name then Rotate(name[|name| - 1], 360.0)
    else if name == "scale" then Scale(1.0)
    else if name == "bounce" then Bounce(Some(5.0))
    else Named(name)
  }

  function Add(s: StoreState, name: string): StoreState {
    s.(entries := s.entries + [Own(Added(name))])
  }

  /** Where `Array.prototype.splice` starts for a start argument `index` on an array of `length`
      elements: a negative index counts from the end, and both ends clamp. */
  function SpliceStart(index: int, length: nat): (k: nat)
    ensures k <= length
  {
    if index < 0 then (if length + index < 0 then 0 else length + index)
    else if index > length then length
    else index
  }

  /** `animationSequence.splice(index, 1)`. */
  function Remove(s: StoreState, index: int): StoreState {
    var k := SpliceStart(index, |s.entries|);
    if k < |s.entries| then s.(entries := s.entries[..k] + s.entries[k + 1..]) else s
  }

  function Clear(s: StoreState): StoreState {
    s.(entries := [])
  }

  /** `[...defaultSequence]`: a new array holding the default's own objects. */
  function DefaultEntries(): (es: seq<Entry>)
    ensures |es| == |DEFAULT_SEQUENCE|
  {
    seq(|DEFAULT_SEQUENCE|, i requires 0 <= i < |DEFAULT_SEQUENCE| => Shared(i))
  }

  function Reset(s: StoreState): StoreState {
    s.(entries := DefaultEntries())
  }

  /** `parseInt(value) || 360`: a parse that fails (NaN, here None) or yields 0 falls back to 360. */
  function RotationValue(parsed: Option<int>): real {
    if parsed == None || parsed == Some(0) then 360.0 else parsed.value as real
  }

  /** `parseFloat(value) || 1.0`: a parse that fails or yields 0 falls back to 1. */
  function ScaleValue(parsed: Option<real>): real {
    if parsed == None || parsed == Some(0.0) then 1.0 else parsed.value
  }

  /** Writes `a` into the object entry `index` stands for: the default's slot for a shared entry,
      the entry itself otherwise. */
  function WriteEntry(s: StoreState, index: nat, a: Action): StoreState
    requires Valid(s) && index < |s.entries|
  {
    match s.entries[index]
    case Shared(slot) => s.(defaults := s.defaults[slot := a])
    case Own(_) => s.(entries := s.entries[index := Own(a)])
  }

  /** `updateRotationValue(index, value)` with `parsed` the result of `parseInt(value)`: only an entry
      that is a rotation object takes the new degrees. */
  function UpdateRotation(s: StoreState, index: int, parsed: Option<int>): StoreState
    requires Valid(s)
  {
    if 0 <= index < |s.entries| && Contents(s)[index].Rotate? then
      WriteEntry(s, index, Contents(s)[index].(degrees := RotationValue(parsed)))
    else s
  }

  /** `updateScaleValue(index, value)` with `parsed` the result of `parseFloat(value)`: only an entry
      that is a scale object takes the new target. */
  function UpdateScale(s: StoreState, index: int, parsed: Option<real>): StoreState
    requires Valid(s)
  {
    if 0 <= index < |s.entries| && Contents(s)[index].Scale? then
      WriteEntry(s, index, Scale(ScaleValue(parsed)))
    else s
  }

  /** `addToSequence` appends exactly one entry and leaves the earlier ones alone: `rotate...` gives a
      360-degree rotation about the name's last character, `scale` a scale to 1, `bounce` a bounce of
      five seconds, and any other name the bare string. */
  lemma AddAppendsOne(s: StoreState, name: string)
    requires Valid(s)
    ensures Valid(Add(s, name))
    ensures Contents(Add(s, name)) == Contents(s) + [Added(name)]
    ensures "rotate" <= name ==> Added(name) == Rotate(name[|name| - 1], 360.0)
    ensures name == "scale" ==> Added(name) == Scale(1.0)
    ensures name == "bounce" ==> Added(name) == Bounce(Some(5.0))
    ensures !("rotate" <= name) && name != "scale" && name != "bounce" ==> Added(name) == Named(name)
  {
    var t := Add(s, name);
    assert forall i :: 0 <= i < |s.entries| ==> t.entries[i] == s.entries[i];
    if name == "scale" || name == "bounce" {
      assert name[0] != "rotate"[0];
    }
  }

  /** `removeFromSequence(index)` with an index inside the script deletes exactly that entry and
      shifts the later ones down by one; an index at or past the end changes nothing; a negative one
      counts from the end, and one before the start clamps to the first entry. The store stays
      valid. */
  lemma RemoveDeletesOne(s: StoreState, index: int)
    requires Valid(s)
    ensures Valid(Remove(s, index))
    ensures 0 <= index < |s.entries| ==>
              Contents(Remove(s, index)) == Contents(s)[..index] + Contents(s)[index + 1..]
    ensures index >= |s.entries| ==> Remove(s, index) == s
    ensures -|s.entries| <= index < 0 ==>
              var k := |s.entries| + index;
              Contents(Remove(s, index)) == Contents(s)[..k] + Contents(s)[k + 1..]
    ensures index < -|s.entries| && |s.entries| > 0 ==> Contents(Remove(s, index)) == Contents(s)[1..]
  {
    var k := SpliceStart(index, |s.entries|);
    if k < |s.entries| {
      DeleteAt(s, k);
      assert k == 0 ==> Contents(s)[..k] + Contents(s)[k + 1..] == Contents(s)[1..];
    }
  }

  /** Deleting entry `k` keeps the store valid and deletes exactly element `k` of the script. */
  lemma DeleteAt(s: StoreState, k: nat)
    requires Valid(s) && k < |s.entries|
    ensures var t := s.(entries := s.entries[..k] + s.entries[k + 1..]);
            Valid(t) && Contents(t) == Contents(s)[..k] + Contents(s)[k + 1..]
  {
    var t := s.(entries := s.entries[..k] + s.entries[k + 1..]);
    forall i | 0 <= i < |t.entries|
      ensures t.entries[i] == s.entries[if i < k then i else i + 1]
    {
    }
    forall i, j | 0 <= i < j < |t.entries| && t.entries[i].Shared? && t.entries[j].Shared?
      ensures t.entries[i].slot != t.entries[j].slot
    {
      var i', j' := if i < k then i else i + 1, if j < k then j else j + 1;
      assert t.entries[i] == s.entries[i'] && t.entries[j] == s.entries[j'] && i' < j';
    }
    var c := Contents(s);
    assert Contents(t) == c[..k] + c[k + 1..];
  }

  /** `resetToDefault` shows the default's current contents, seven entries, and a second reset
      changes nothing further. */
  lemma ResetShowsDefault(s: StoreState)
    requires Valid(s)
    ensures Valid(Reset(s))
    ensures Contents(Reset(s)) == s.defaults && |Contents(Reset(s))| == 7
    ensures Reset(Reset(s)) == Reset(s)
  {
    var t := Reset(s);
    assert forall i :: 0 <= i < |t.entries| ==> t.entries[i] == Shared(i);
  }

  /** The builder's first reset, and any reset before an edit, yields the built-in default. */
  lemma FirstResetIsDefault()
    ensures Valid(INITIAL)
    ensures Contents(Reset(INITIAL)) == DEFAULT_SEQUENCE
  {
    ResetShowsDefault(INITIAL);
  }

  /** Writing an action of the same kind into one entry changes that entry of the script and no
      other, keeps the store valid, and reaches the default only through a shared entry. */
  lemma WriteEntryChangesOne(s: StoreState, index: nat, a: Action)
    requires Valid(s) && index < |s.entries| && SameKind(a, Contents(s)[index])
    ensures Valid(WriteEntry(s, index, a))
    ensures Contents(WriteEntry(s, index, a)) == Contents(s)[index := a]
    ensures s.entries[index].Own? ==> WriteEntry(s, index, a).defaults == s.defaults
  {
    var t := WriteEntry(s, index, a);
    match s.entries[index]
    case Shared(slot) =>
      assert SameKind(a, DEFAULT_SEQUENCE[slot]) by {
        assert SameKind(s.defaults[slot], DEFAULT_SEQUENCE[slot]);
      }
      forall i | 0 <= i < |t.entries|
        ensures Resolve(t.defaults, t.entries[i]) == Contents(s)[index := a][i]
      {
        if i != index && t.entries[i].Shared? {
          assert t.entries[i].slot != slot;
        }
      }
    case Own(_) =>
      assert Producible(a) by {
        assert Producible(Contents(s)[index]);
      }
  }

  /** `updateRotationValue` changes only a rotation entry at that index, and only its degrees, to the
      parsed value or 360 when the parse gives NaN or 0; any other index or entry leaves the script
      and the default alone. */
  lemma UpdateRotationChangesOne(s: StoreState, index: int, parsed: Option<int>)
    requires Valid(s)
    ensures Valid(UpdateRotation(s, index, parsed))
    ensures 0 <= index < |s.entries| && Contents(s)[index].Rotate? ==>
              && Contents(UpdateRotation(s, index, parsed)) ==
                   Contents(s)[index := Rotate(Contents(s)[index].axis, RotationValue(parsed))]
              && RotationValue(parsed) == (if parsed.Some? && parsed.value != 0 then parsed.value as real else 360.0)
    ensures !(0 <= index < |s.entries| && Contents(s)[index].Rotate?) ==> UpdateRotation(s, index, parsed) == s
  {
    if 0 <= index < |s.entries| && Contents(s)[index].Rotate? {
      WriteEntryChangesOne(s, index, Contents(s)[index].(degrees := RotationValue(parsed)));
    }
  }

  /** `updateScaleValue` changes only a scale entry at that index, to the parsed value or 1 when the
      parse gives NaN or 0; any other index or entry leaves the script and the default alone. */
  lemma UpdateScaleChangesOne(s: StoreState, index: int, parsed: Option<real>)
    requires Valid(s)
    ensures Valid(UpdateScale(s, index, parsed))
    ensures 0 <= index < |s.entries| && Contents(s)[index].Scale? ==>
              && Contents(UpdateScale(s, index, parsed)) == Contents(s)[index := Scale(ScaleValue(parsed))]
              && ScaleValue(parsed) == (if parsed.Some? && parsed.value != 0.0 then parsed.value else 1.0)
    ensures !(0 <= index < |s.entries| && Contents(s)[index].Scale?) ==> UpdateScale(s, index, parsed) == s
  {
    if 0 <= index < |s.entries| && Contents(s)[index].Scale? {
      WriteEntryChangesOne(s, index, Scale(ScaleValue(parsed)));
    }
  }

  /** The built-in default holds no bare string the program would read as another kind. */
  lemma DefaultProducible()
    ensures forall i :: 0 <= i < |DEFAULT_SEQUENCE| ==> Producible(DEFAULT_SEQUENCE[i])
  {
    assert "center"[0] != "rotate"[0];
  }

  /** No script the store holds contains a bare `'scale'` or `'bounce'` string or a bare string the
      engine would read as a rotation. */
  lemma ContentsProducible(s: StoreState)
    requires Valid(s)
    ensures forall i :: 0 <= i < |Contents(s)| ==> Producible(Contents(s)[i])
  {
    forall i | 0 <= i < |Contents(s)|
      ensures Producible(Contents(s)[i])
    {
      if s.entries[i].Shared? {
        var slot := s.entries[i].slot;
        assert SameKind(s.defaults[slot], DEFAULT_SEQUENCE[slot]);
        DefaultProducible();
      }
    }
  }

  /** As written, an edit of an entry after a reset survives the next reset: editing a shared
      rotation entry and resetting shows the edited degrees at that slot. */
  lemma EditSurvivesReset(s: StoreState, index: int, parsed: Option<int>)
    requires Valid(s) && 0 <= index < |s.entries| && s.entries[index].Shared? && Contents(s)[index].Rotate?
    ensures var slot := s.entries[index].slot;
            Contents(Reset(UpdateRotation(s, index, parsed)))[slot]
              == Rotate(Contents(s)[index].axis, RotationValue(parsed))
  {
    UpdateRotationChangesOne(s, index, parsed);
    ResetShowsDefault(UpdateRotation(s, index, parsed));
  }

  /** The input that shows it: reset, set the first rotation to 90 degrees, reset again; the script
      starts with a 90-degree turn, not the default's 180. */
  lemma ResetAfterEditIsNotDefault()
    ensures var edited := UpdateRotation(Reset(INITIAL), 0, Some(90));
            Valid(edited) && Contents(Reset(edited))[0] == Rotate('Z', 90.0) != DEFAULT_SEQUENCE[0]
  {
    FirstResetIsDefault();
    var s := Reset(INITIAL);
    assert s.entries[0] == Shared(0);
    EditSurvivesReset(s, 0, Some(90));
    UpdateRotationChangesOne(s, 0, Some(90));
  }

  /** The reset the default evidently intends: a new array of copies of the built-in objects, so
      that no edit reaches the default. */
  function ResetCopy(s: StoreState): StoreState {
    s.(entries := seq(|DEFAULT_SEQUENCE|, i requires 0 <= i < |DEFAULT_SEQUENCE| => Own(DEFAULT_SEQUENCE[i])))
  }

  /** With copying resets, every reset yields exactly the built-in default, and no edit, of any
      entry, changes what the next reset yields. */
  lemma ResetCopyIsDefault(s: StoreState, index: int, rotation: Option<int>, scale: Option<real>)
    requires Valid(s) && s.defaults == DEFAULT_SEQUENCE
    ensures Valid(ResetCopy(s)) && Contents(ResetCopy(s)) == DEFAULT_SEQUENCE
    ensures UpdateRotation(ResetCopy(s), index, rotation).defaults == DEFAULT_SEQUENCE
    ensures UpdateScale(ResetCopy(s), index, scale).defaults == DEFAULT_SEQUENCE
  {
    var t := ResetCopy(s);
    assert forall i :: 0 <= i < |t.entries| ==> t.entries[i] == Own(DEFAULT_SEQUENCE[i]);
    DefaultProducible();
    assert forall i :: 0 <= i < |DEFAULT_SEQUENCE| ==> SameKind(DEFAULT_SEQUENCE[i], DEFAULT_SEQUENCE[i]);
    UpdateRotationChangesOne(t, index, rotation);
    UpdateScaleChangesOne(t, index, scale);
    if 0 <= index < |t.entries| && Contents(t)[index].Rotate? {
      WriteEntryChangesOne(t, index, Contents(t)[index].(degrees := RotationValue(rotation)));
    }
    if 0 <= index < |t.entries| && Contents(t)[index].Scale? {
      WriteEntryChangesOne(t, index, Scale(ScaleValue(scale)));
    }
  }

  /** The module-level `animationSequence` and the objects of `defaultSequence`. */
  class SequenceBuilder {
    var defaults: seq<Action>
    var entries: seq<Entry>

    function Model(): StoreState
      reads this
    {
      StoreState(defaults, entries)
    }

    /** `initSequenceBuilder`: the script starts empty and is reset to the default. */
    constructor ()
      ensures Model() == Reset(INITIAL) && Valid(Model())
      ensures Contents(Model()) == DEFAULT_SEQUENCE
    {
      defaults := DEFAULT_SEQUENCE;
      entries := [];
      new;
      FirstResetIsDefault();
      ResetToDefault();
    }

    method AddToSequence(action: string)
      requires Valid(Model())
      modifies this
      ensures Model() == Add(old(Model()), action) && Valid(Model())
      ensures Contents(Model()) == Contents(old(Model())) + [Added(action)]
    {
      AddAppendsOne(Model(), action);
      if "rotate" <= action {
        entries := entries + [Own(Rotate(action[|action| - 1], 360.0))];
      } else if action == "scale" {
        entries := entries + [Own(Scale(1.0))];
      } else if action == "bounce" {
        entries := entries + [Own(Bounce(Some(5.0)))];
      } else {
        entries := entries + [Own(Named(action))];
      }
    }

    method RemoveFromSequence(index: int)
      requires Valid(Model())
      modifies this
      ensures Model() == Remove(old(Model()), index) && Valid(Model())
    {
      RemoveDeletesOne(Model(), index);
      var start := SpliceStart(index, |entries|);
      if start < |entries| {
        entries := entries[..start] + entries[start + 1..];
      }
    }

    method ClearSequence()
      requires Valid(Model())
      modifies this
      ensures Model() == Clear(old(Model())) && Valid(Model())
      ensures Contents(Model()) == []
    {
      entries := [];
    }

    method ResetToDefault()
      requires Valid(Model())
      modifies this
      ensures Model() == Reset(old(Model())) && Valid(Model())
      ensures Contents(Model()) == defaults
    {
      ResetShowsDefault(Model());
      entries := DefaultEntries();
    }

    method UpdateRotationValue(index: int, parsed: Option<int>)
      requires Valid(Model())
      modifies this
      ensures Model() == UpdateRotation(old(Model()), index, parsed) && Valid(Model())
    {
      UpdateRotationChangesOne(Model(), index, parsed);
      var degrees := if parsed == None || parsed == Some(0) then 360.0 else parsed.value as real;
      if 0 <= index < |entries| {
        match entries[index]
        case Shared(slot) =>
          if defaults[slot].Rotate? {
            defaults := defaults[slot := defaults[slot].(degrees := degrees)];
          }
        case Own(a) =>
          if a.Rotate? {
            entries := entries[index := Own(a.(degrees := degrees))];
          }
      }
    }

    method UpdateScaleValue(index: int, parsed: Option<real>)
      requires Valid(Model())
      modifies this
      ensures Model() == UpdateScale(old(Model()), index, parsed) && Valid(Model())
    {
      UpdateScaleChangesOne(Model(), index, parsed);
      var scale := if parsed == None || parsed == Some(0.0) then 1.0 else parsed.value;
      if 0 <= index < |entries| {
        match entries[index]
        case Shared(slot) =>
          if defaults[slot].Scale? {
            defaults := defaults[slot := Scale(scale)];
          }
        case Own(a) =>
          if a.Scale? {
            entries := entries[index := Own(Scale(scale))];
          }
      }
    }
  }
}
