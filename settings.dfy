/**
 * The maintenance procedure (SOP) editor of the settings screen: a form whose list of steps grows,
 * changes one entry at a time and shrinks, and a save that keeps only the non-blank steps and then
 * resets the form.
 */
module Settings {
  import opened Wrappers
  import opened Strings
  import opened Seqs
  import opened Types
  import opened AssetLibrary

  /** The form being filled in. */
  datatype SopForm = SopForm(
    categoryId: string,
    title: string,
    description: string,
    steps: seq<string>,
    frequency: string,
    estimatedTime: string)

  /** A saved procedure: the form's fields plus the id, the category's name and the creation day. */
  datatype Sop = Sop(
    id: int,
    categoryId: string,
    title: string,
    description: string,
    steps: seq<string>,
    frequency: string,
    estimatedTime: string,
    categoryName: string,
    createdAt: string)

  /** The form as it starts and as a save leaves it: one empty step, weekly. */
  function EmptySopForm(): (r: SopForm)
    ensures r.steps == [""] && r.frequency == "Weekly"
    ensures r.categoryId == "" && r.title == "" && r.description == "" && r.estimatedTime == ""
  {
    SopForm("", "", "", [""], "Weekly", "")
  }

  // ---------------------------------------------------------------- steps

  /** `step.trim()` is truthy. */
  predicate NonBlank(step: string) {
    Trim(step) != ""
  }

  /** `steps.filter(step => step.trim())`. */
  function NonBlankSteps(steps: seq<string>): (r: seq<string>)
    ensures |r| <= |steps|
    ensures forall x :: x in r <==> x in steps && exists i :: 0 <= i < |x| && !IsSpace(x[i])
  {
    Filter(steps, NonBlank)
  }

  /** Keeping the non-blank steps of steps already kept changes nothing. */
  lemma NonBlankStepsIdempotent(steps: seq<string>)
    ensures NonBlankSteps(NonBlankSteps(steps)) == NonBlankSteps(steps)
  {
    FilterIdempotent(steps, NonBlank);
  }

  /** There is a non-blank step exactly when some step holds a character other than white space. */
  lemma HasNonBlankStep(steps: seq<string>)
    ensures |NonBlankSteps(steps)| > 0 <==> exists i :: 0 <= i < |steps| && NonBlank(steps[i])
  {
    FilterEmpty(steps, NonBlank);
  }

  /** `steps.filter((_, i) => i !== index)`: the step at the index goes; out of range nothing does. */
  function RemoveAt(steps: seq<string>, index: int): (r: seq<string>)
    ensures 0 <= index < |steps| ==> |r| == |steps| - 1
    ensures 0 <= index < |steps| ==> forall j :: 0 <= j < |r| ==> r[j] == if j < index then steps[j] else steps[j + 1]
    ensures !(0 <= index < |steps|) ==> r == steps
  {
    if 0 <= index < |steps| then steps[..index] + steps[index + 1..] else steps
  }

  /** Removing the step just added gives back the steps from before. */
  lemma RemoveAddedStep(steps: seq<string>)
    ensures RemoveAt(steps + [""], |steps|) == steps
  {
    var r := RemoveAt(steps + [""], |steps|);
    assert |r| == |steps|;
    assert forall j :: 0 <= j < |r| ==> r[j] == steps[j];
  }

  /** Changing a step does not change how many steps there are, nor whether the others are kept. */
  lemma UpdateKeepsOthers(steps: seq<string>, index: nat, value: string)
    requires index < |steps|
    ensures NonBlankSteps(steps[index := value]) ==
      NonBlankSteps(steps[..index]) + NonBlankSteps([value]) + NonBlankSteps(steps[index + 1..])
  {
    var u := steps[index := value];
    assert u == steps[..index] + [value] + steps[index + 1..];
    FilterAppend(steps[..index] + [value], steps[index + 1..], NonBlank);
    FilterAppend(steps[..index], [value], NonBlank);
  }

  // ---------------------------------------------------------------- saving

  /** The guard of `saveSop`: a category, a title and at least one non-blank step. */
  predicate CanSave(f: SopForm) {
    f.categoryId != "" && f.title != "" && |NonBlankSteps(f.steps)| > 0
  }

  /** `categories.find(cat => cat.id === id)?.name || "Unknown"`: an empty name falls back too. */
  function SopCategoryName(categories: seq<AssetCategory>, id: string): (r: string)
    ensures r != ""
    ensures (forall i :: 0 <= i < |categories| ==> categories[i].id != id) ==> r == "Unknown"
  {
    var n := CategoryName(categories, id);
    if n == "" then "Unknown" else n
  }

  /** The first category with the id names the procedure, "Unknown" when that name is empty. */
  lemma SopCategoryNameFirst(categories: seq<AssetCategory>, id: string, i: nat)
    requires i < |categories| && categories[i].id == id
    requires forall j :: 0 <= j < i ==> categories[j].id != id
    ensures SopCategoryName(categories, id) == if categories[i].name == "" then "Unknown" else categories[i].name
  {
  }

  /** The record `saveSop` appends: the form with its non-blank steps, the category name, the id and the day. */
  function SavedSop(f: SopForm, categories: seq<AssetCategory>, id: int, today: string): (r: Sop)
    ensures r.id == id && r.createdAt == today
    ensures r.categoryId == f.categoryId && r.title == f.title && r.description == f.description
    ensures r.frequency == f.frequency && r.estimatedTime == f.estimatedTime
    ensures r.steps == NonBlankSteps(f.steps)
    ensures r.categoryName == SopCategoryName(categories, f.categoryId)
  {
    Sop(id, f.categoryId, f.title, f.description, NonBlankSteps(f.steps), f.frequency, f.estimatedTime,
        SopCategoryName(categories, f.categoryId), today)
  }

  /** A saved procedure has at least one step, and every step holds more than white space. */
  lemma SavedStepsNonBlank(f: SopForm, categories: seq<AssetCategory>, id: int, today: string)
    requires CanSave(f)
    ensures |SavedSop(f, categories, id, today).steps| > 0
    ensures forall i :: 0 <= i < |SavedSop(f, categories, id, today).steps| ==> NonBlank(SavedSop(f, categories, id, today).steps[i])
  {
  }

  /** `sops.filter(sop => sop.id !== id)`. */
  function SopsWithout(sops: seq<Sop>, id: int): (r: seq<Sop>)
    ensures forall s :: s in r <==> s in sops && s.id != id
    ensures (forall i :: 0 <= i < |sops| ==> sops[i].id != id) ==> r == sops
  {
    KeepAllSops(sops, id);
    Filter(sops, (s: Sop) => s.id != id)
  }

  lemma KeepAllSops(sops: seq<Sop>, id: int)
    ensures (forall i :: 0 <= i < |sops| ==> sops[i].id != id) ==> Filter(sops, (s: Sop) => s.id != id) == sops
  {
    if forall i :: 0 <= i < |sops| ==> sops[i].id != id {
      FilterAll(sops, (s: Sop) => s.id != id);
    }
  }

  // ---------------------------------------------------------------- the component

  class MaintenanceSopEditor {
    var sops: seq<Sop>
    var isCreating: bool
    var newSop: SopForm

    constructor ()
      ensures sops == [] && !isCreating && newSop == EmptySopForm()
    {
      sops := [];
      isCreating := false;
      newSop := EmptySopForm();
    }

    /** `addStep`: one empty step at the end. */
    method AddStep()
      modifies this
      ensures newSop == old(newSop).(steps := old(newSop).steps + [""])
      ensures sops == old(sops) && isCreating == old(isCreating)
    {
      newSop := newSop.(steps := newSop.steps + [""]);
    }

    /** `updateStep`: the step at the index takes the value; every other step stays. */
    method UpdateStep(index: nat, value: string)
      requires index < |newSop.steps|
      modifies this
      ensures |newSop.steps| == |old(newSop).steps| && newSop.steps[index] == value
      ensures forall j :: 0 <= j < |newSop.steps| && j != index ==> newSop.steps[j] == old(newSop).steps[j]
      ensures newSop == old(newSop).(steps := newSop.steps)
      ensures sops == old(sops) && isCreating == old(isCreating)
    {
      var updated := newSop.steps;
      updated := updated[index := value];
      newSop := newSop.(steps := updated);
    }

    /** `removeStep`: the step at the index goes, the others keep their order. */
    method RemoveStep(index: int)
      modifies this
      ensures newSop == old(newSop).(steps := RemoveAt(old(newSop).steps, index))
      ensures sops == old(sops) && isCreating == old(isCreating)
    {
      newSop := newSop.(steps := RemoveAt(newSop.steps, index));
    }

    /**
     * `saveSop`: when the form passes the guard, the procedure is appended, the form resets and the
     * editor closes; otherwise nothing changes. The clock's id and day are parameters.
     */
    method SaveSop(categories: seq<AssetCategory>, id: int, today: string)
      modifies this
      ensures CanSave(old(newSop)) ==> sops == old(sops) + [SavedSop(old(newSop), categories, id, today)]
      ensures CanSave(old(newSop)) ==> newSop == EmptySopForm() && !isCreating
      ensures !CanSave(old(newSop)) ==> sops == old(sops) && newSop == old(newSop) && isCreating == old(isCreating)
    {
      if CanSave(newSop) {
        var sop := SavedSop(newSop, categories, id, today);
        sops := sops + [sop];
        newSop := EmptySopForm();
        isCreating := false;
      }
    }

    /** `deleteSop`: every procedure with the id goes. */
    method DeleteSop(id: int)
      modifies this
      ensures sops == SopsWithout(old(sops), id)
      ensures newSop == old(newSop) && isCreating == old(isCreating)
    {
      sops := SopsWithout(sops, id);
    }
  }
}
