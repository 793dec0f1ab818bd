/** The company profile editor (src/components/company/CompanyProfile.tsx):
    a copy of the company record that the form edits field by field, a
    tech-stack list with add and remove, and an edit-mode switch. */
module CompanyProfile {
  import opened Options
  import opened Strings
  import opened Seqs

  /** What a form field holds. The record arrives with a number in
      `employeeCount`, but the change handler stores the input's text there. */
  datatype Entry = Num(n: int) | Str(text: string)

  datatype Company = Company(
    name: string,
    logo: Option<string>,
    industry: string,
    employeeCount: Entry,
    email: string,
    techStack: seq<string>,
    githubConnected: bool,
    jiraConnected: bool,
    website: Option<string>,
    location: Option<string>,
    phone: Option<string>,
    description: Option<string>)

  /** The inputs wired to `handleInputChange`, by their `name` attribute. */
  datatype Field = Name | Email | Industry | EmployeeCount | Website | Location | Phone | Description

  function Lift(o: Option<string>): Option<Entry> {
    if o.Some? then Some(Str(o.value)) else None
  }

  /** The current value behind a form field (`undefined` for an absent optional one). */
  function Read(c: Company, f: Field): Option<Entry> {
    match f
    case Name => Some(Str(c.name))
    case Email => Some(Str(c.email))
    case Industry => Some(Str(c.industry))
    case EmployeeCount => Some(c.employeeCount)
    case Website => Lift(c.website)
    case Location => Lift(c.location)
    case Phone => Lift(c.phone)
    case Description => Lift(c.description)
  }

  /** `{...company, [name]: value}`: the named field takes the text typed,
      every other field, the tech stack and the connection flags are kept. */
  function WithField(c: Company, f: Field, value: string): (r: Company)
    ensures Read(r, f) == Some(Str(value))
    ensures forall g :: g != f ==> Read(r, g) == Read(c, g)
    ensures r.techStack == c.techStack && r.logo == c.logo
    ensures r.githubConnected == c.githubConnected && r.jiraConnected == c.jiraConnected
  {
    match f
    case Name => c.(name := value)
    case Email => c.(email := value)
    case Industry => c.(industry := value)
    case EmployeeCount => c.(employeeCount := Str(value))
    case Website => c.(website := Some(value))
    case Location => c.(location := Some(value))
    case Phone => c.(phone := Some(value))
    case Description => c.(description := Some(value))
  }

  /** Whether `handleAddTech` accepts the typed text: non-blank once trimmed
      and not yet in the list. */
  predicate Accepts(stack: seq<string>, input: string) {
    Trim(input) != "" && Trim(input) !in stack
  }

  /** The tech stack after `handleAddTech`: the trimmed text appended when
      accepted, the list as it was otherwise. */
  function AddedTech(stack: seq<string>, input: string): (r: seq<string>)
    ensures |stack| <= |r| <= |stack| + 1 && r[..|stack|] == stack
    ensures |r| == |stack| + 1 <==> Accepts(stack, input)
    ensures Trim(input) != "" ==> Trim(input) in r
    ensures forall k :: |stack| <= k < |r| ==> r[k] == Trim(input)
    ensures NoDuplicates(stack) ==> NoDuplicates(r)
  {
    if Accepts(stack, input) then stack + [Trim(input)] else stack
  }

  /** Adding the same text twice adds it once. */
  lemma AddTechIdempotent(stack: seq<string>, input: string)
    ensures AddedTech(AddedTech(stack, input), input) == AddedTech(stack, input)
  {
    var once := AddedTech(stack, input);
    if Trim(input) != "" {
      assert Trim(input) in once;
    }
  }

  /** The tech stack after `handleRemoveTech(tech)`: every copy of `tech`
      removed, the other entries kept in their order. */
  function RemovedTech(stack: seq<string>, tech: string): (r: seq<string>)
    ensures tech !in r
    ensures forall k :: 0 <= k < |stack| && stack[k] != tech ==> stack[k] in r
    ensures forall k :: 0 <= k < |r| ==> r[k] in stack
    ensures IsSubsequence(r, stack)
    ensures tech !in stack ==> r == stack
    ensures NoDuplicates(stack) ==> NoDuplicates(r)
    ensures forall t :: multiset(r)[t] == if t == tech then 0 else multiset(stack)[t]
  {
    var keep := (t: string) => t != tech;
    var r := Filter(stack, keep);
    FilterMultiset(stack, keep);
    FilterIsSubsequence(stack, keep);
    RemoveFacts(stack, tech, keep);
    r
  }

  lemma RemoveFacts(stack: seq<string>, tech: string, keep: string -> bool)
    requires forall x :: keep(x) == (x != tech)
    ensures tech !in stack ==> Filter(stack, keep) == stack
    ensures NoDuplicates(stack) ==> NoDuplicates(Filter(stack, keep))
  {
    if tech !in stack {
      FilterAll(stack, keep);
    }
    if NoDuplicates(stack) {
      FilterNoDuplicates(stack, keep);
    }
  }

  /** Removing a technology that was just added gives back the old list. */
  lemma RemoveAfterAdd(stack: seq<string>, input: string)
    requires Accepts(stack, input)
    ensures RemovedTech(AddedTech(stack, input), Trim(input)) == stack
  {
    var t := Trim(input);
    var keep := (x: string) => x != t;
    RemoveAppended(stack, t, keep);
    FilterAll(stack, keep);
  }

  lemma {:induction false} RemoveAppended(stack: seq<string>, t: string, keep: string -> bool)
    requires forall x :: keep(x) == (x != t)
    ensures Filter(stack + [t], keep) == Filter(stack, keep)
  {
    if stack == [] {
      assert Filter([t], keep) == [] + Filter([t][1..], keep);
    } else {
      assert (stack + [t])[1..] == stack[1..] + [t];
      RemoveAppended(stack[1..], t, keep);
    }
  }

  /** The component's state: the edited copy of the record, the text of the
      "Add technology" input and whether the form is in edit mode. */
  class ProfileEditor {
    var company: Company
    var newTech: string
    var editMode: bool

    constructor(companyData: Company)
      ensures company == companyData && newTech == "" && !editMode
    {
      company := companyData;
      newTech := "";
      editMode := false;
    }

    /** `handleAddTech`. On acceptance the trimmed text is appended and the
        input cleared; otherwise nothing changes, not even the input. */
    method AddTech()
      modifies this
      ensures company == old(company).(techStack := AddedTech(old(company.techStack), old(newTech)))
      ensures newTech == (if Accepts(old(company.techStack), old(newTech)) then "" else old(newTech))
      ensures editMode == old(editMode)
    {
      if Accepts(company.techStack, newTech) {
        company := company.(techStack := company.techStack + [Trim(newTech)]);
        newTech := "";
      }
    }

    /** `handleRemoveTech(tech)`: only the tech stack changes. */
    method RemoveTech(tech: string)
      modifies this
      ensures company == old(company).(techStack := RemovedTech(old(company.techStack), tech))
      ensures newTech == old(newTech) && editMode == old(editMode)
    {
      company := company.(techStack := RemovedTech(company.techStack, tech));
    }

    /** The input's `onChange`. */
    method SetNewTech(value: string)
      modifies this
      ensures newTech == value && company == old(company) && editMode == old(editMode)
    {
      newTech := value;
    }

    /** The input's `onKeyDown`: Enter adds, any other key does nothing. */
    method KeyDown(key: string)
      modifies this
      ensures key == "Enter" ==>
        company == old(company).(techStack := AddedTech(old(company.techStack), old(newTech)))
      ensures key == "Enter" ==>
        newTech == (if Accepts(old(company.techStack), old(newTech)) then "" else old(newTech))
      ensures key != "Enter" ==> company == old(company) && newTech == old(newTech)
      ensures editMode == old(editMode)
    {
      if key == "Enter" {
        AddTech();
      }
    }

    /** `handleInputChange` for the input named `f`. */
    method InputChange(f: Field, value: string)
      modifies this
      ensures company == WithField(old(company), f, value)
      ensures newTech == old(newTech) && editMode == old(editMode)
    {
      company := WithField(company, f, value);
    }

    /** "Edit Profile". */
    method Edit()
      modifies this
      ensures editMode && company == old(company) && newTech == old(newTech)
    {
      editMode := true;
    }

    /** `handleSave`: leaves edit mode; the record keeps its edits (the save
        itself is only a console message). */
    method Save()
      modifies this
      ensures !editMode && company == old(company) && newTech == old(newTech)
    {
      editMode := false;
    }

    /** "Cancel": leaves edit mode without reverting the edits. */
    method Cancel()
      modifies this
      ensures !editMode && company == old(company) && newTech == old(newTech)
    {
      editMode := false;
    }
  }

  /** Cancel keeps what was typed: an edit followed by Cancel is still there. */
  method CancelKeepsEdits(data: Company, value: string) returns (shown: Option<Entry>)
    ensures shown == Some(Str(value))
  {
    var editor := new ProfileEditor(data);
    editor.Edit();
    editor.InputChange(Name, value);
    editor.Cancel();
    shown := Read(editor.company, Name);
  }
}
