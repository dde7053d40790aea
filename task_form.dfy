/** The task form (client/src/components/forms/TaskForm.tsx): its form state,
    the comma-separated tag field, the status options and the choice between
    creating and updating. */
module TaskForm {
  import opened JsValues
  import opened Http
  import TasksApi

  // ---------------------------------------------------------------------
  // Status options

  /** `STATUS_OPTIONS`. */
  const StatusOptions: seq<string> := ["TODO", "IN_PROGRESS", "COMPLETED", "ON_HOLD"]

  /** The index of the first occurrence of `c` in `s`, if any. */
  function FirstIndex(s: string, c: char): (r: Option<nat>)
    ensures r.Some? ==> r.value < |s| && s[r.value] == c && c !in s[..r.value]
    ensures r.None? ==> c !in s
  {
    if s == [] then None
    else if s[0] == c then Some(0)
    else
      var rest := FirstIndex(s[1..], c);
      if rest.None? then None else Some(rest.value + 1)
  }

  /** `s.replace(from, to)` with a one-character string pattern: only the first
      occurrence is replaced. */
  function ReplaceFirst(s: string, from: char, to: char): (r: string)
    ensures |r| == |s|
    ensures from !in s ==> r == s
    ensures from in s ==>
              var i := FirstIndex(s, from).value;
              r[i] == to && forall k :: 0 <= k < |s| && k != i ==> r[k] == s[k]
  {
    var i := FirstIndex(s, from);
    if i.None? then s else s[..i.value] + [to] + s[i.value + 1..]
  }

  /** The label a status option is shown with: `status.replace('_', ' ')`. */
  function StatusLabel(status: string): (shown: string)
  {
    ReplaceFirst(status, '_', ' ')
  }

  /** The first underscore is the one replaced. */
  lemma {:induction false} FirstIndexAfter(pre: string, c: char, post: string)
    requires c !in pre
    ensures FirstIndex(pre + [c] + post, c) == Some(|pre|)
  {
    if pre != [] {
      FirstIndexAfter(pre[1..], c, post);
      assert (pre + [c] + post)[1..] == pre[1..] + [c] + post;
    }
  }

  /** A name whose first underscore follows `pre` is shown with a space in
      its place and the rest, later underscores included, unchanged. */
  lemma LabelReplacesFirstUnderscore(pre: string, post: string)
    requires '_' !in pre
    ensures StatusLabel(pre + "_" + post) == pre + " " + post
  {
    FirstIndexAfter(pre, '_', post);
    var s := pre + "_" + post;
    assert s[..|pre|] == pre && s[|pre| + 1..] == post;
  }

  /** The four options are shown as "TODO", "IN PROGRESS", "COMPLETED" and
      "ON HOLD". */
  lemma StatusLabels()
    ensures |StatusOptions| == 4
    ensures StatusLabel(StatusOptions[0]) == "TODO"
    ensures StatusLabel(StatusOptions[1]) == "IN PROGRESS"
    ensures StatusLabel(StatusOptions[2]) == "COMPLETED"
    ensures StatusLabel(StatusOptions[3]) == "ON HOLD"
  {
    PlainStatusLabels();
    InProgressLabel();
    OnHoldLabel();
  }

  lemma PlainStatusLabels()
    ensures StatusLabel(StatusOptions[0]) == "TODO"
    ensures StatusLabel(StatusOptions[2]) == "COMPLETED"
  {
    NoUnderscore("TODO");
    NoUnderscore("COMPLETED");
  }

  lemma InProgressLabel()
    ensures StatusLabel(StatusOptions[1]) == "IN PROGRESS"
  {
    var pre, post := "IN", "PROGRESS";
    assert StatusOptions[1] == pre + "_" + post;
    LabelReplacesFirstUnderscore(pre, post);
    assert pre + " " + post == "IN PROGRESS";
  }

  lemma OnHoldLabel()
    ensures StatusLabel(StatusOptions[3]) == "ON HOLD"
  {
    var pre, post := "ON", "HOLD";
    assert StatusOptions[3] == pre + "_" + post;
    LabelReplacesFirstUnderscore(pre, post);
    assert pre + " " + post == "ON HOLD";
  }

  /** A name without an underscore is shown as it is. */
  lemma NoUnderscore(s: string)
    requires '_' !in s
    ensures StatusLabel(s) == s
  {
  }

  // ---------------------------------------------------------------------
  // The tag field

  /** A tag as the parser produces it: non-empty, trimmed, comma-free. */
  predicate WellFormedTag(t: string) {
    t != "" && Trimmed(t) && ',' !in t
  }

  predicate WellFormedTags(tags: seq<string>) {
    forall i :: 0 <= i < |tags| ==> WellFormedTag(tags[i])
  }

  /** `.map(tag => tag.trim())`. */
  function TrimAll(pieces: seq<string>): (r: seq<string>)
    ensures |r| == |pieces|
    ensures forall i :: 0 <= i < |pieces| ==> r[i] == Trim(pieces[i])
  {
    seq(|pieces|, i requires 0 <= i < |pieces| => Trim(pieces[i]))
  }

  /** `.filter(Boolean)` on strings: drops the empty ones, keeps the order. */
  function DropEmpty(pieces: seq<string>): (r: seq<string>)
    ensures |r| <= |pieces|
  {
    if pieces == [] then []
    else if pieces[0] == "" then DropEmpty(pieces[1..])
    else [pieces[0]] + DropEmpty(pieces[1..])
  }

  /** `filter(Boolean)` keeps exactly the non-empty pieces. */
  lemma {:induction false} DropEmptyMembers(pieces: seq<string>, t: string)
    ensures t in DropEmpty(pieces) <==> t in pieces && t != ""
  {
    if pieces != [] {
      DropEmptyMembers(pieces[1..], t);
      assert pieces == [pieces[0]] + pieces[1..];
    }
  }

  /** `handleTagsChange`'s parser: `value.split(',').map(trim).filter(Boolean)`. */
  function ParseTags(value: string): (tags: seq<string>)
  {
    DropEmpty(TrimAll(Split(value, ',')))
  }

  /** The field's displayed value: `tags.join(', ')`. */
  function DisplayTags(tags: seq<string>): string
  {
    Join(tags, ", ")
  }

  /** `trim` adds no character: a character missing from the input is
      missing from the result. */
  lemma TrimKeepsOut(p: string, c: char)
    requires c !in p
    ensures c !in Trim(p)
  {
    var t := TrimStart(p);
    NotInSlice(p, |p| - |t|, |p|, c);
    NotInSlice(t, 0, |TrimEnd(t)|, c);
  }

  /** A character missing from a string is missing from each of its slices. */
  lemma NotInSlice(s: string, i: nat, j: nat, c: char)
    requires c !in s && i <= j <= |s|
    ensures c !in s[i..j]
  {
    forall k | 0 <= k < j - i
      ensures s[i..j][k] != c
    {
      assert s[i..j][k] == s[i + k];
    }
  }

  /** Every parsed tag is non-empty, has no surrounding whitespace and
      contains no comma. */
  lemma ParsedTagsWellFormed(value: string)
    ensures WellFormedTags(ParseTags(value))
  {
    var pieces := Split(value, ',');
    var trimmed := TrimAll(pieces);
    forall j | 0 <= j < |trimmed|
      ensures trimmed[j] == "" || WellFormedTag(trimmed[j])
    {
      TrimIsTrimmed(pieces[j]);
      TrimKeepsOut(pieces[j], ',');
    }
    var tags := DropEmpty(trimmed);
    forall i | 0 <= i < |tags|
      ensures WellFormedTag(tags[i])
    {
      DropEmptyMembers(trimmed, tags[i]);
    }
  }

  lemma {:induction false} DropEmptyConcat(a: seq<string>, b: seq<string>)
    ensures DropEmpty(a + b) == DropEmpty(a) + DropEmpty(b)
  {
    if a != [] {
      DropEmptyConcat(a[1..], b);
      assert (a + b)[1..] == a[1..] + b;
    } else {
      assert a + b == b;
    }
  }

  lemma TrimAllConcat(a: seq<string>, b: seq<string>)
    ensures TrimAll(a + b) == TrimAll(a) + TrimAll(b)
  {
  }

  /** Parsing distributes over a split of the piece list. */
  lemma ParseOfPieces(a: seq<string>, b: seq<string>)
    ensures DropEmpty(TrimAll(a + b)) == DropEmpty(TrimAll(a)) + DropEmpty(TrimAll(b))
  {
    TrimAllConcat(a, b);
    DropEmptyConcat(TrimAll(a), TrimAll(b));
  }

  /** Text up to the first comma parses on its own. */
  lemma ParseTagsAtComma(a: string, b: string)
    requires ',' !in a
    ensures ParseTags(a + [','] + b) == ParseTags(a) + ParseTags(b)
  {
    SplitAtSep(a, b, ',');
    SplitNoSep(a, ',');
    ParseOfPieces([a], Split(b, ','));
  }

  /** A character other than the separator joins the first piece. */
  lemma SplitLeadingChar(c: char, x: string, sep: char)
    requires c != sep
    ensures var p := Split(x, sep);
            Split([c] + x, sep) == [[c] + p[0]] + p[1..]
  {
    assert ([c] + x)[1..] == x;
  }

  /** A leading space makes no difference: `trim` removes it. */
  lemma ParseTagsLeadingSpace(x: string)
    ensures ParseTags(" " + x) == ParseTags(x)
  {
    var p := Split(x, ',');
    var rest := p[1..];
    assert [p[0]] + rest == p;
    calc {
      ParseTags(" " + x);
      { SplitLeadingChar(' ', x, ','); }
      DropEmpty(TrimAll([" " + p[0]] + rest));
      { ParseOfPieces([" " + p[0]], rest); }
      DropEmpty(TrimAll([" " + p[0]])) + DropEmpty(TrimAll(rest));
      { TrimLeadingSpaceAny(p[0]); assert TrimAll([" " + p[0]]) == TrimAll([p[0]]); }
      DropEmpty(TrimAll([p[0]])) + DropEmpty(TrimAll(rest));
      { ParseOfPieces([p[0]], rest); }
      DropEmpty(TrimAll(p));
    }
  }

  /** `trim` removes a leading space from any string. */
  lemma TrimLeadingSpaceAny(s: string)
    ensures Trim(" " + s) == Trim(s)
  {
    assert (" " + s)[1..] == s;
    assert TrimStart(" " + s) == TrimStart(s);
  }

  /** A well-formed tag parses to itself. */
  lemma ParseSingleTag(t: string)
    requires WellFormedTag(t)
    ensures ParseTags(t) == [t]
  {
    SplitNoSep(t, ',');
    TrimOfTrimmed(t);
  }

  /** Printing well-formed tags and parsing the text again gives the same
      tags back. */
  lemma {:induction false} ParseDisplay(tags: seq<string>)
    requires WellFormedTags(tags)
    ensures ParseTags(DisplayTags(tags)) == tags
  {
    if |tags| == 0 {
      assert Split("", ',') == [""];
    } else if |tags| == 1 {
      ParseSingleTag(tags[0]);
    } else {
      var first, rest := tags[0], tags[1..];
      assert WellFormedTag(first);
      assert WellFormedTags(rest) by {
        forall i | 0 <= i < |rest|
          ensures WellFormedTag(rest[i])
        {
          assert rest[i] == tags[i + 1];
        }
      }
      calc {
        ParseTags(DisplayTags(tags));
        { DisplayCons(tags); }
        ParseTags(first + [','] + (" " + DisplayTags(rest)));
        { ParseTagsAtComma(first, " " + DisplayTags(rest)); }
        ParseTags(first) + ParseTags(" " + DisplayTags(rest));
        { ParseTagsLeadingSpace(DisplayTags(rest)); }
        ParseTags(first) + ParseTags(DisplayTags(rest));
        { ParseSingleTag(first); ParseDisplay(rest); }
        [first] + rest;
      }
      assert [first] + rest == tags;
    }
  }

  /** The displayed text of two or more tags: the first, then a comma, a
      space and the rest. */
  lemma DisplayCons(tags: seq<string>)
    requires |tags| >= 2
    ensures DisplayTags(tags) == tags[0] + [','] + (" " + DisplayTags(tags[1..]))
  {
    assert DisplayTags(tags) == tags[0] + ", " + Join(tags[1..], ", ");
  }

  /** Normalisation is idempotent: re-parsing the displayed tags changes
      nothing. */
  lemma NormaliseIdempotent(value: string)
    ensures ParseTags(DisplayTags(ParseTags(value))) == ParseTags(value)
  {
    ParsedTagsWellFormed(value);
    ParseDisplay(ParseTags(value));
  }

  /** Splitting text that ends in a comma yields one more, empty, piece. */
  lemma {:induction false} SplitTrailingComma(x: string)
    ensures Split(x + [','], ',') == Split(x, ',') + [""]
  {
    if x == [] {
      assert [','][1..] == [];
    } else {
      SplitTrailingComma(x[1..]);
      assert (x + [','])[1..] == x[1..] + [','];
    }
  }

  /** `pieces` with `suffix` appended to its last piece. */
  function AppendToLast(pieces: seq<string>, suffix: string): (r: seq<string>)
    requires |pieces| >= 1
    ensures |r| == |pieces| && r[|r| - 1] == pieces[|pieces| - 1] + suffix
    ensures forall i :: 0 <= i < |r| - 1 ==> r[i] == pieces[i]
  {
    pieces[..|pieces| - 1] + [pieces[|pieces| - 1] + suffix]
  }

  /** An empty piece put in front does not change which piece is last. */
  lemma AppendToLastAfterEmpty(q: seq<string>, suffix: string)
    requires |q| >= 1
    ensures AppendToLast([""] + q, suffix) == [""] + AppendToLast(q, suffix)
  {
  }

  /** A character put in front of the first piece stays in front of it. */
  lemma AppendToLastAfterChar(c: char, q: seq<string>, suffix: string)
    requires |q| >= 1
    ensures var qs := AppendToLast(q, suffix);
            AppendToLast([[c] + q[0]] + q[1..], suffix) == [[c] + qs[0]] + qs[1..]
  {
    var qs := AppendToLast(q, suffix);
    if |q| == 1 {
      assert [c] + qs[0] == ([c] + q[0]) + suffix;
    }
  }

  /** Splitting text that ends in a space puts the space on the last piece. */
  lemma {:induction false} SplitTrailingSpace(x: string)
    ensures Split(x + " ", ',') == AppendToLast(Split(x, ','), " ")
  {
    if x == [] {
      assert x + " " == [' '] + x;
      SplitLeadingChar(' ', x, ',');
      assert Split(x, ',') == [""];
    } else {
      var y := x[1..];
      SplitTrailingSpace(y);
      assert (x + " ")[1..] == y + " ";
      var q := Split(y, ',');
      if x[0] == ',' {
        AppendToLastAfterEmpty(q, " ");
      } else {
        AppendToLastAfterChar(x[0], q, " ");
      }
    }
  }

  /** Appending to a string changes its leading whitespace only when the
      string is all whitespace. */
  lemma {:induction false} TrimStartAppend(p: string, s: string)
    ensures TrimStart(p + s) == if TrimStart(p) == [] then TrimStart(s) else TrimStart(p) + s
  {
    if p == [] {
      assert p + s == s;
    } else {
      assert (p + s)[0] == p[0];
      assert (p + s)[1..] == p[1..] + s;
      if IsSpace(p[0]) {
        TrimStartAppend(p[1..], s);
      }
    }
  }

  /** Trailing whitespace does not reach the parsed tags. */
  lemma TrimTrailingSpace(p: string)
    ensures Trim(p + " ") == Trim(p)
  {
    TrimStartAppend(p, " ");
    var t := TrimStart(p);
    if t == [] {
      assert IsSpace(" "[0]) && " "[1..] == [];
      assert TrimStart(" ") == [];
      assert TrimStart(p + " ") == [];
    } else {
      var u := t + " ";
      assert TrimStart(p + " ") == u;
      assert u != [] && IsSpace(u[|u| - 1]);
      assert u[..|u| - 1] == t;
      assert TrimEnd(u) == TrimEnd(t);
    }
  }

  /** A comma typed at the end adds only an empty piece, which is dropped. */
  lemma ParseTrailingComma(x: string)
    ensures ParseTags(x + ",") == ParseTags(x)
  {
    var p := Split(x, ',');
    SplitTrailingComma(x);
    assert Split(x + ",", ',') == p + [""];
    ParseOfPieces(p, [""]);
    var e := TrimAll([""]);
    assert e[0] == Trim("") == "";
    assert DropEmpty(e) == DropEmpty(e[1..]);
    assert DropEmpty(e) == [];
  }

  /** A space typed at the end is trimmed from the last piece. */
  lemma ParseTrailingSpace(x: string)
    ensures ParseTags(x + " ") == ParseTags(x)
  {
    var p := Split(x, ',');
    var init := p[..|p| - 1];
    var last := p[|p| - 1];
    SplitTrailingSpace(x);
    assert Split(x + " ", ',') == init + [last + " "];
    assert init + [last] == p;
    calc {
      ParseTags(x + " ");
      DropEmpty(TrimAll(init + [last + " "]));
      { ParseOfPieces(init, [last + " "]); }
      DropEmpty(TrimAll(init)) + DropEmpty(TrimAll([last + " "]));
      { TrimTrailingSpace(last); assert TrimAll([last + " "]) == TrimAll([last]); }
      DropEmpty(TrimAll(init)) + DropEmpty(TrimAll([last]));
      { ParseOfPieces(init, [last]); }
      DropEmpty(TrimAll(p));
    }
  }

  /** The field is controlled: each keystroke is parsed and the parsed tags
      are displayed again. Typing a comma or a space after the displayed tags
      therefore shows the same text as before, so a new tag cannot be started
      by typing a separator at the end. */
  lemma TypedSeparatorIsUndone(tags: seq<string>)
    requires WellFormedTags(tags)
    ensures DisplayTags(ParseTags(DisplayTags(tags) + ",")) == DisplayTags(tags)
    ensures DisplayTags(ParseTags(DisplayTags(tags) + " ")) == DisplayTags(tags)
  {
    ParseTrailingComma(DisplayTags(tags));
    ParseTrailingSpace(DisplayTags(tags));
    ParseDisplay(tags);
  }

  // ---------------------------------------------------------------------
  // Form state

  /** `formData`. */
  datatype TaskFormData = TaskFormData(
    projectId: Number,
    title: string,
    description: string,
    status: string,
    tags: seq<string>)

  /** The `defaultValues` prop; every field optional. */
  datatype TaskDefaults = TaskDefaults(
    projectId: Option<int>,
    title: Option<string>,
    description: Option<string>,
    status: Option<string>,
    tags: Option<seq<string>>)

  /** `x || fallback` for an optional string: an empty string counts as
      missing. */
  function StringOr(x: Option<string>, fallback: string): (r: string)
    ensures x.Some? && x.value != "" ==> r == x.value
    ensures !(x.Some? && x.value != "") ==> r == fallback
  {
    if x.Some? && x.value != "" then x.value else fallback
  }

  /** The initial `formData`: each default or, when it is falsy, 0, '', '',
      'TODO' and []. An array is always truthy, so given tags are kept even
      when empty. */
  function InitialFormData(d: TaskDefaults): (r: TaskFormData)
    ensures r.projectId == Int(if OptIntTruthy(d.projectId) then d.projectId.value else 0)
    ensures r.title == StringOr(d.title, "") && r.description == StringOr(d.description, "")
    ensures r.status == StringOr(d.status, "TODO") && r.status != ""
    ensures r.tags == d.tags.GetOr([])
  {
    TaskFormData(
      Int(if OptIntTruthy(d.projectId) then d.projectId.value else 0),
      StringOr(d.title, ""),
      StringOr(d.description, ""),
      StringOr(d.status, "TODO"),
      if d.tags.Some? then d.tags.value else [])
  }

  /** With no defaults the form starts as project 0, empty title and
      description, status TODO and no tags. */
  lemma EmptyDefaults()
    ensures InitialFormData(TaskDefaults(None, None, None, None, None))
              == TaskFormData(Int(0), "", "", "TODO", [])
  {
  }

  /** What `mutation.mutate(formData)` hands to the API. */
  function ToInput(data: TaskFormData): (input: TasksApi.TaskInput)
    ensures input.tags == Some(data.tags) && input.projectId == data.projectId
  {
    TasksApi.TaskInput(data.projectId, data.title, data.description, data.status, Some(data.tags))
  }

  /** The mutation: update when editing with a truthy task id, create
      otherwise. */
  function SubmitRequest(data: TaskFormData, isEdit: bool, taskId: Option<nat>): (r: Request<TasksApi.TaskBody>)
    ensures r.Put? <==> isEdit && taskId.Some? && taskId.value != 0
    ensures r.Put? ==> r == TasksApi.UpdateRequest(taskId.value, ToInput(data))
    ensures !r.Put? ==> r == TasksApi.CreateRequest(ToInput(data))
  {
    if isEdit && taskId.Some? && taskId.value != 0 then TasksApi.UpdateRequest(taskId.value, ToInput(data))
    else TasksApi.CreateRequest(ToInput(data))
  }

  /** The form component's state and handlers. */
  class TaskFormState {
    var formData: TaskFormData
    const isEdit: bool
    const taskId: Option<nat>

    constructor (defaults: TaskDefaults, isEdit: bool, taskId: Option<nat>)
      ensures formData == InitialFormData(defaults)
      ensures this.isEdit == isEdit && this.taskId == taskId
    {
      formData := InitialFormData(defaults);
      this.isEdit := isEdit;
      this.taskId := taskId;
    }

    /** The text the tag input shows. */
    function TagsField(): string
      reads this
    {
      DisplayTags(formData.tags)
    }

    /** The project select: `parseInt` of the chosen option's value. */
    method ChangeProject(value: string)
      modifies this
      ensures formData == old(formData).(projectId := ParseInt(value))
    {
      formData := formData.(projectId := ParseInt(value));
    }

    method ChangeTitle(value: string)
      modifies this
      ensures formData == old(formData).(title := value)
    {
      formData := formData.(title := value);
    }

    method ChangeDescription(value: string)
      modifies this
      ensures formData == old(formData).(description := value)
    {
      formData := formData.(description := value);
    }

    method ChangeStatus(value: string)
      modifies this
      ensures formData == old(formData).(status := value)
    {
      formData := formData.(status := value);
    }

    /** `handleTagsChange`: only the tags change, to the parsed list, which
        is well formed. */
    method ChangeTags(value: string)
      modifies this
      ensures formData == old(formData).(tags := ParseTags(value))
      ensures WellFormedTags(formData.tags)
    {
      ParsedTagsWellFormed(value);
      formData := formData.(tags := ParseTags(value));
    }

    /** `handleSubmit`: the request the mutation sends; the form state is
        left as it is. */
    method Submit() returns (request: Request<TasksApi.TaskBody>)
      ensures request == SubmitRequest(formData, isEdit, taskId)
    {
      if isEdit && taskId.Some? && taskId.value != 0 {
        request := TasksApi.UpdateRequest(taskId.value, ToInput(formData));
      } else {
        request := TasksApi.CreateRequest(ToInput(formData));
      }
    }
  }

  /** Choosing the option of project `id` sets the form's project id to that
      id: the option's value is `id.toString()`. */
  lemma SelectedProjectIsParsedBack(id: nat)
    ensures ParseInt(NatToString(id)) == Int(id)
  {
    ParseIntOfNatToString(id);
  }
}
