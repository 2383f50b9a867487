/** app/dashboard/prompts/page.tsx: the prompt list with its search and status filter, the
    create form (key selection, default name, validation) and the delete/restore actions.

    The React state slots are the fields of class PromptsPage and each handler is a method.
    Every network call is replaced by its outcome, given as an argument; a handler that also
    reloads the list takes the reload's outcome as a second argument. */
module PromptsPage {
  import opened Types
  import opened Text
  import opened Listing
  import Utils
  import ApiClient

  const PAGE_SIZE := 20

  // ----- Default name derived from a prompt key -----

  /** `w.charAt(0).toUpperCase() + w.slice(1)` */
  function Capitalize(w: string): (r: string)
    ensures |r| == |w|
    ensures w != [] ==> r[0] == UpperChar(w[0]) && r[1..] == w[1..]
  {
    if w == [] then "" else [UpperChar(w[0])] + w[1..]
  }

  function CapitalizeAll(words: seq<string>): (r: seq<string>)
    ensures |r| == |words|
    ensures forall i :: 0 <= i < |words| ==> r[i] == Capitalize(words[i])
  {
    if words == [] then [] else [Capitalize(words[0])] + CapitalizeAll(words[1..])
  }

  /** One `/`-segment: split on `_`, capitalise every word, join with a space. */
  function SegmentName(part: string): string
  {
    Join(CapitalizeAll(Split(part, '_')), " ")
  }

  function SegmentNames(parts: seq<string>): (r: seq<string>)
    ensures |r| == |parts|
    ensures forall i :: 0 <= i < |parts| ==> r[i] == SegmentName(parts[i])
  {
    if parts == [] then [] else [SegmentName(parts[0])] + SegmentNames(parts[1..])
  }

  /** The name proposed when a key is selected: segments split on `/`, each segment's
      words capitalised, segments joined with " - "; no key gives the empty name. */
  function DefaultName(key: string): (r: string)
    ensures r == "" <==> key == ""
  {
    if key == "" then ""
    else
      SegmentsJoinIsNameFrom(key);
      NameFromLength(key, true);
      Join(SegmentNames(Split(key, '/')), " - ")
  }

  /** Reference definition of the same name, one character at a time: `/` becomes " - ",
      `_` becomes a space, and the first character of every word is upper-cased. */
  function NameFrom(key: string, wordStart: bool): string
  {
    if key == [] then ""
    else if key[0] == '/' then " - " + NameFrom(key[1..], true)
    else if key[0] == '_' then " " + NameFrom(key[1..], true)
    else [if wordStart then UpperChar(key[0]) else key[0]] + NameFrom(key[1..], false)
  }

  lemma {:induction false} PlainNameFrom(w: string)
    requires '/' !in w && '_' !in w
    ensures NameFrom(w, false) == w
    ensures NameFrom(w, true) == Capitalize(w)
  {
    if w != [] {
      assert '/' !in w[1..] && '_' !in w[1..];
      PlainNameFrom(w[1..]);
      assert w == [w[0]] + w[1..];
    }
  }

  lemma {:induction false} NameFromAtSeparator(a: string, c: char, b: string, wordStart: bool)
    requires c == '/' || c == '_'
    requires '/' !in a && '_' !in a
    ensures NameFrom(a + [c] + b, wordStart)
         == NameFrom(a, wordStart) + (if c == '/' then " - " else " ") + NameFrom(b, true)
  {
    if a == [] {
      assert a + [c] + b == [c] + b;
      assert ([c] + b)[1..] == b;
    } else {
      assert (a + [c] + b)[1..] == a[1..] + [c] + b;
      assert '/' !in a[1..] && '_' !in a[1..];
      NameFromAtSeparator(a[1..], c, b, false);
    }
  }

  /** The `_`-split of a segment with at least one `_` peels off its first word. */
  lemma SegmentNameUnfold(part: string, i: nat)
    requires '_' in part && i == IndexOf(part, '_')
    ensures SegmentName(part) == Capitalize(part[..i]) + " " + SegmentName(part[i + 1..])
  {
    var a, rest := part[..i], part[i + 1..];
    var words := Split(rest, '_');
    assert Split(part, '_') == [a] + words;
    assert ([a] + words)[1..] == words;
    var caps := CapitalizeAll(words);
    assert CapitalizeAll([a] + words) == [Capitalize(a)] + caps;
    assert ([Capitalize(a)] + caps)[1..] == caps;
  }

  lemma {:induction false} SegmentNameIsNameFrom(part: string)
    requires '/' !in part
    ensures SegmentName(part) == NameFrom(part, true)
    decreases |part|
  {
    if '_' !in part {
      assert Split(part, '_') == [part];
      PlainNameFrom(part);
    } else {
      var i := IndexOf(part, '_');
      var a, rest := part[..i], part[i + 1..];
      SegmentNameUnfold(part, i);
      assert '/' !in rest by {
        assert forall j :: 0 <= j < |rest| ==> rest[j] == part[i + 1 + j];
      }
      SegmentNameIsNameFrom(rest);
      assert '/' !in a && '_' !in a by {
        assert forall j :: 0 <= j < |a| ==> a[j] == part[j];
      }
      PlainNameFrom(a);
      assert part == a + ['_'] + rest;
      NameFromAtSeparator(a, '_', rest, true);
    }
  }

  /** Splitting at the first `/`: the part before it, then the parts of what follows. */
  lemma SplitAtSlash(key: string, a: string, rest: string)
    requires '/' in key && a == key[..IndexOf(key, '/')] && rest == key[IndexOf(key, '/') + 1..]
    ensures Split(key, '/') == [a] + Split(rest, '/')
    ensures key == a + ['/'] + rest && '/' !in a
  {
  }

  lemma SegmentNamesCons(x: string, xs: seq<string>)
    ensures SegmentNames([x] + xs) == [SegmentName(x)] + SegmentNames(xs)
  {
    assert ([x] + xs)[1..] == xs;
  }

  lemma {:induction false} SegmentsJoinIsNameFrom(key: string)
    ensures Join(SegmentNames(Split(key, '/')), " - ") == NameFrom(key, true)
    decreases |key|
  {
    if '/' !in key {
      assert Split(key, '/') == [key];
      SegmentNameIsNameFrom(key);
    } else {
      var i := IndexOf(key, '/');
      var a, rest := key[..i], key[i + 1..];
      SplitAtSlash(key, a, rest);
      SegmentNamesCons(a, Split(rest, '/'));
      var names := SegmentNames(Split(rest, '/'));
      assert ([SegmentName(a)] + names)[1..] == names;
      assert Join(SegmentNames(Split(key, '/')), " - ") == SegmentName(a) + " - " + Join(names, " - ");
      SegmentsJoinIsNameFrom(rest);
      SegmentNameIsNameFrom(a);
      NameFromPrefixThenSlash(a, rest, true);
    }
  }

  /** A `/` ends the name of what precedes it with " - ", whatever that part holds. */
  lemma {:induction false} NameFromPrefixThenSlash(a: string, rest: string, wordStart: bool)
    requires '/' !in a
    ensures NameFrom(a + ['/'] + rest, wordStart) == NameFrom(a, wordStart) + " - " + NameFrom(rest, true)
    decreases |a|
  {
    if a == [] {
      assert a + ['/'] + rest == ['/'] + rest;
      assert (['/'] + rest)[1..] == rest;
    } else {
      assert (a + ['/'] + rest)[1..] == a[1..] + ['/'] + rest;
      assert '/' !in a[1..];
      NameFromPrefixThenSlash(a[1..], rest, a[0] == '_');
    }
  }

  /** The split/capitalise/join pipeline agrees with the character-level definition. */
  lemma DefaultNameIsNameFrom(key: string)
    ensures DefaultName(key) == NameFrom(key, true)
  {
    if key != "" {
      SegmentsJoinIsNameFrom(key);
    }
  }

  lemma {:induction false} NameFromLength(key: string, wordStart: bool)
    ensures |NameFrom(key, wordStart)| == |key| + 2 * Count(key, '/')
  {
    if key != [] {
      NameFromLength(key[1..], key[0] == '/' || key[0] == '_');
      NameFromLength(key[1..], false);
    }
  }

  /** Every `/` widens the name by two characters (" - "); nothing else changes length. */
  lemma DefaultNameLength(key: string)
    ensures |DefaultName(key)| == |key| + 2 * Count(key, '/')
  {
    DefaultNameIsNameFrom(key);
    NameFromLength(key, true);
  }

  lemma {:induction false} NameFromHasNoSeparators(key: string, wordStart: bool)
    ensures '/' !in NameFrom(key, wordStart) && '_' !in NameFrom(key, wordStart)
  {
    if key != [] {
      NameFromHasNoSeparators(key[1..], key[0] == '/' || key[0] == '_');
      NameFromHasNoSeparators(key[1..], false);
    }
  }

  /** The proposed name never shows a raw separator of the key. */
  lemma DefaultNameHasNoSeparators(key: string)
    ensures '/' !in DefaultName(key) && '_' !in DefaultName(key)
  {
    DefaultNameIsNameFrom(key);
    NameFromHasNoSeparators(key, true);
  }

  /** Characters of the keys the backend defines: lower-case letters, digits, `_` and `/`. */
  predicate IsKeyChar(c: char)
  {
    IsLowerAscii(c) || IsDigit(c) || c == '_' || c == '/'
  }

  predicate IsKey(k: string)
  {
    forall i :: 0 <= i < |k| ==> IsKeyChar(k[i])
  }

  /** Reads a key back out of a default name: " - " is `/`, a space is `_`, letters lower-cased. */
  function KeyOf(name: string): string
    decreases |name|
  {
    if name == [] then ""
    else if |name| >= 3 && name[..3] == " - " then "/" + KeyOf(name[3..])
    else if name[0] == ' ' then "_" + KeyOf(name[1..])
    else [LowerChar(name[0])] + KeyOf(name[1..])
  }

  lemma NameFromDoesNotStartWithDash(key: string, wordStart: bool)
    requires IsKey(key) && key != []
    ensures NameFrom(key, wordStart) != [] && NameFrom(key, wordStart)[0] != '-'
  {
  }

  lemma {:induction false} KeyOfNameFrom(key: string, wordStart: bool)
    requires IsKey(key)
    ensures KeyOf(NameFrom(key, wordStart)) == key
  {
    if key != [] {
      var rest := key[1..];
      assert IsKey(rest);
      var c := key[0];
      var name := NameFrom(key, wordStart);
      if c == '/' {
        KeyOfNameFrom(rest, true);
        assert name == " - " + NameFrom(rest, true);
        assert name[..3] == " - " && name[3..] == NameFrom(rest, true);
      } else if c == '_' {
        KeyOfNameFrom(rest, true);
        assert name == " " + NameFrom(rest, true);
        if rest != [] {
          NameFromDoesNotStartWithDash(rest, true);
          assert name[1] != '-';
        }
        assert name[1..] == NameFrom(rest, true);
      } else {
        KeyOfNameFrom(rest, false);
        assert name[1..] == NameFrom(rest, false);
        assert name[0] != ' ';
      }
    }
  }

  /** Reading the key back from its default name gives the key. */
  lemma DefaultNameRoundTrip(key: string)
    requires IsKey(key)
    ensures KeyOf(DefaultName(key)) == key
  {
    DefaultNameIsNameFrom(key);
    KeyOfNameFrom(key, true);
  }

  /** Different keys never propose the same name. */
  lemma DefaultNameInjective(k1: string, k2: string)
    requires IsKey(k1) && IsKey(k2) && DefaultName(k1) == DefaultName(k2)
    ensures k1 == k2
  {
    DefaultNameRoundTrip(k1);
    DefaultNameRoundTrip(k2);
  }

  // ----- Create form -----

  datatype CreateForm = CreateForm(
    key: string,
    name: string,
    description: string,
    templateContent: string,
    variables: string)

  const EMPTY_FORM := CreateForm("", "", "", "", "")

  datatype FormField = NameField | DescriptionField | TemplateField | VariablesField

  /** `promptKeys.find((k) => k.key === key)`: the first definition with that key. */
  function FindKeyDef(defs: seq<PromptKeyDefinition>, key: string): (r: Option<PromptKeyDefinition>)
    ensures r.None? <==> forall i :: 0 <= i < |defs| ==> defs[i].key != key
    ensures r.Some? ==> exists i :: 0 <= i < |defs| && defs[i] == r.value && r.value.key == key
                                 && forall j :: 0 <= j < i ==> defs[j].key != key
  {
    if defs == [] then None
    else if defs[0].key == key then
      assert defs[0] == defs[0];
      Some(defs[0])
    else
      var r := FindKeyDef(defs[1..], key);
      if r.Some? then
        var i :| 0 <= i < |defs[1..]| && defs[1..][i] == r.value && r.value.key == key
                 && forall j :: 0 <= j < i ==> defs[1..][j].key != key;
        assert defs[i + 1] == r.value && forall j :: 0 <= j < i + 1 ==> defs[j].key != key;
        r
      else
        r
  }

  /** The form after a key is picked: the key, its default name and the definition's
      description (or nothing) replace the old ones; template and variables stay. */
  function SelectKey(form: CreateForm, defs: seq<PromptKeyDefinition>, selected: string): (r: CreateForm)
    ensures r.key == selected && r.name == DefaultName(selected)
    ensures r.templateContent == form.templateContent && r.variables == form.variables
    ensures FindKeyDef(defs, selected).None? ==> r.description == ""
    ensures FindKeyDef(defs, selected).Some? ==> r.description == FindKeyDef(defs, selected).value.description
  {
    var found := FindKeyDef(defs, selected);
    var description := if found.Some? then Some(found.value.description) else None;
    form.(key := selected, name := DefaultName(selected), description := OrElse(description, ""))
  }

  /** The body `handleCreate` sends, or nothing when it stops early: no key selected, or
      variables that are neither blank nor valid JSON (`isJson` stands for JSON.parse
      succeeding). */
  function CreateDto(form: CreateForm, isJson: string -> bool): (r: Option<CreatePromptDto>)
    ensures r.None? <==> form.key == "" || (!IsBlank(form.variables) && !isJson(form.variables))
    ensures r.Some? ==>
              r.value.key == form.key && r.value.name == form.name && r.value.templateContent == form.templateContent
    ensures r.Some? ==> (r.value.description.None? <==> form.description == "")
    ensures r.Some? && form.description != "" ==> r.value.description == Some(form.description)
    ensures r.Some? ==> (r.value.variables.None? <==> IsBlank(form.variables))
    ensures r.Some? && !IsBlank(form.variables) ==> r.value.variables == Some(form.variables)
  {
    if form.key == "" then None
    else if !IsBlank(form.variables) && !isJson(form.variables) then None
    else
      Some(CreatePromptDto(
        form.key,
        form.name,
        if form.description == "" then None else Some(form.description),
        form.templateContent,
        if IsBlank(form.variables) then None else Some(form.variables)))
  }

  // ----- List query -----

  /** The filters `loadPrompts` passes: an empty search is undefined; the status select's
      "" means any status, "true" active, anything else inactive. */
  function PromptQuery(page: int, searchTerm: string, activeFilter: string): (f: ApiClient.PromptFilters)
    ensures f.page == Some(page) && f.pageSize == Some(PAGE_SIZE)
    ensures f.search.None? <==> searchTerm == ""
    ensures f.search.Some? ==> f.search.value == searchTerm
    ensures f.isActive.None? <==> activeFilter == ""
    ensures f.isActive == Some(true) <==> activeFilter == "true"
    ensures f.isActive == Some(false) <==> activeFilter != "" && activeFilter != "true"
  {
    ApiClient.PromptFilters(
      Some(page),
      Some(PAGE_SIZE),
      if searchTerm == "" then None else Some(searchTerm),
      if activeFilter == "" then None else Some(activeFilter == "true"))
  }

  /** On the wire: the page as held (it is never 0) and a page size of 20. */
  lemma PromptListRequest(page: int, searchTerm: string, activeFilter: string)
    requires page >= 1
    ensures ApiClient.GetPrompts(PromptQuery(page, searchTerm, activeFilter)).query[ApiClient.Page] == Some(ApiClient.PNum(page))
    ensures ApiClient.GetPrompts(PromptQuery(page, searchTerm, activeFilter)).query[ApiClient.PageSize] == Some(ApiClient.PNum(PAGE_SIZE))
    ensures ApiClient.GetPrompts(PromptQuery(page, searchTerm, activeFilter)).query[ApiClient.Search]
            == (if searchTerm == "" then None else Some(ApiClient.PStr(searchTerm)))
  {
  }

  // ----- Row actions -----

  datatype RowAction = DeleteButton | RestoreButton(disabled: bool, caption: string)

  /** Active prompts offer Delete, inactive ones Restore, which is disabled and captioned
      "Restoring..." while that prompt is being restored. */
  function RowActionFor(p: Prompt, restoringId: Option<string>): (a: RowAction)
    ensures a.DeleteButton? <==> p.isActive
    ensures a.RestoreButton? ==> (a.disabled <==> restoringId == Some(p.id))
    ensures a.RestoreButton? ==> a.caption == (if a.disabled then "Restoring..." else "Restore")
  {
    if p.isActive then DeleteButton
    else
      var busy := restoringId == Some(p.id);
      RestoreButton(busy, if busy then "Restoring..." else "Restore")
  }

  /** The offered action agrees with the status badge in the same row. */
  lemma RowActionMatchesBadge(p: Prompt, restoringId: Option<string>)
    ensures RowActionFor(p, restoringId).DeleteButton? <==> Utils.PromptStatusLabel(p.isActive) == "Active"
  {
  }

  // ----- Page state -----

  class PromptsPage {
    var prompts: seq<Prompt>
    var page: int
    var totalPages: int
    var totalItems: int
    var searchTerm: string
    var activeFilter: string
    var promptKeys: seq<PromptKeyDefinition>
    var showCreateModal: bool
    var form: CreateForm
    var deleteTarget: Option<Prompt>
    var restoringId: Option<string>

    twostate predicate ListUnchanged()
      reads this
    {
      prompts == old(prompts) && totalPages == old(totalPages) && totalItems == old(totalItems)
    }

    twostate predicate ControlsUnchanged()
      reads this
    {
      page == old(page) && searchTerm == old(searchTerm) && activeFilter == old(activeFilter)
    }

    twostate predicate DialogsUnchanged()
      reads this
    {
      promptKeys == old(promptKeys) && showCreateModal == old(showCreateModal) && form == old(form)
      && deleteTarget == old(deleteTarget) && restoringId == old(restoringId)
    }

    /** The list, page count and total as a successful `loadPrompts` leaves them, with `[]`,
        1 and 0 standing in for missing fields. */
    predicate ListFrom(out: Outcome<seq<Prompt>>)
      reads this
    {
      && Succeeded(out)
      && prompts == ListOrEmpty(out.envelope.data)
      && totalPages == TotalPagesOf(out.envelope.meta)
      && totalItems == TotalOf(out.envelope.meta)
    }

    constructor ()
      ensures prompts == [] && page == 1 && totalPages == 1 && totalItems == 0
      ensures searchTerm == "" && activeFilter == "true"
      ensures promptKeys == [] && !showCreateModal && form == EMPTY_FORM
      ensures deleteTarget == None && restoringId == None
    {
      prompts := [];
      page := 1;
      totalPages := 1;
      totalItems := 0;
      searchTerm := "";
      activeFilter := "true";
      promptKeys := [];
      showCreateModal := false;
      form := EMPTY_FORM;
      deleteTarget := None;
      restoringId := None;
    }

    /** `loadPrompts`: on a successful envelope the list, page count and total are replaced
        (with `[]`, 1 and 0 standing in for missing fields); otherwise nothing changes. */
    method LoadPrompts(out: Outcome<seq<Prompt>>) returns (sent: ApiClient.Request)
      modifies this
      ensures sent == ApiClient.GetPrompts(PromptQuery(page, searchTerm, activeFilter))
      ensures Succeeded(out) ==> ListFrom(out)
      ensures !Succeeded(out) ==> ListUnchanged()
      ensures ControlsUnchanged() && DialogsUnchanged()
    {
      sent := ApiClient.GetPrompts(PromptQuery(page, searchTerm, activeFilter));
      if Succeeded(out) {
        prompts := ListOrEmpty(out.envelope.data);
        totalPages := TotalPagesOf(out.envelope.meta);
        totalItems := TotalOf(out.envelope.meta);
      }
    }

    /** `loadPromptKeys`: the definitions are replaced only by a successful envelope with data. */
    method LoadPromptKeys(out: Outcome<seq<PromptKeyDefinition>>) returns (sent: ApiClient.Request)
      modifies this
      ensures sent == ApiClient.GetPromptKeys()
      ensures Succeeded(out) && out.envelope.data.Some? ==> promptKeys == out.envelope.data.value
      ensures !(Succeeded(out) && out.envelope.data.Some?) ==> promptKeys == old(promptKeys)
      ensures ListUnchanged() && ControlsUnchanged()
      ensures showCreateModal == old(showCreateModal) && form == old(form)
      ensures deleteTarget == old(deleteTarget) && restoringId == old(restoringId)
    {
      sent := ApiClient.GetPromptKeys();
      if Succeeded(out) && out.envelope.data.Some? {
        promptKeys := out.envelope.data.value;
      }
    }

    /** `openCreateModal`: fetch the key definitions and show the dialog. */
    method OpenCreateModal(out: Outcome<seq<PromptKeyDefinition>>) returns (sent: ApiClient.Request)
      modifies this
      ensures sent == ApiClient.GetPromptKeys() && showCreateModal
      ensures Succeeded(out) && out.envelope.data.Some? ==> promptKeys == out.envelope.data.value
      ensures !(Succeeded(out) && out.envelope.data.Some?) ==> promptKeys == old(promptKeys)
      ensures ListUnchanged() && ControlsUnchanged()
      ensures form == old(form) && deleteTarget == old(deleteTarget) && restoringId == old(restoringId)
    {
      sent := LoadPromptKeys(out);
      showCreateModal := true;
    }

    method CloseCreateModal()
      modifies this
      ensures !showCreateModal
      ensures ListUnchanged() && ControlsUnchanged()
      ensures promptKeys == old(promptKeys) && form == old(form)
      ensures deleteTarget == old(deleteTarget) && restoringId == old(restoringId)
    {
      showCreateModal := false;
    }

    /** The key select's `onChange`. */
    method ChooseKey(selected: string)
      modifies this
      ensures form == SelectKey(old(form), promptKeys, selected)
      ensures ListUnchanged() && ControlsUnchanged()
      ensures promptKeys == old(promptKeys) && showCreateModal == old(showCreateModal)
      ensures deleteTarget == old(deleteTarget) && restoringId == old(restoringId)
    {
      form := SelectKey(form, promptKeys, selected);
    }

    /** The other inputs of the create form each replace their own field. */
    method EditField(field: FormField, value: string)
      modifies this
      ensures form == match field
                      case NameField => old(form).(name := value)
                      case DescriptionField => old(form).(description := value)
                      case TemplateField => old(form).(templateContent := value)
                      case VariablesField => old(form).(variables := value)
      ensures ListUnchanged() && ControlsUnchanged()
      ensures promptKeys == old(promptKeys) && showCreateModal == old(showCreateModal)
      ensures deleteTarget == old(deleteTarget) && restoringId == old(restoringId)
    {
      match field
      case NameField => form := form.(name := value);
      case DescriptionField => form := form.(description := value);
      case TemplateField => form := form.(templateContent := value);
      case VariablesField => form := form.(variables := value);
    }

    /** `handleCreate`. Nothing is sent when CreateDto refuses the form. After a successful
        create the dialog closes, the form is emptied, the page goes back to 1 and the list
        is reloaded; the reload still carries the page the handler started with. */
    method HandleCreate(isJson: string -> bool, out: Outcome<Prompt>, reloadOut: Outcome<seq<Prompt>>)
      returns (sent: Option<ApiClient.Request>, reloadSent: Option<ApiClient.Request>)
      modifies this
      ensures CreateDto(old(form), isJson).None? ==> sent.None? && reloadSent.None?
      ensures CreateDto(old(form), isJson).Some? ==>
                sent == Some(ApiClient.CreatePrompt(CreateDto(old(form), isJson).value))
      ensures sent.Some? && Succeeded(out) ==>
                && !showCreateModal && form == EMPTY_FORM && page == 1
                && reloadSent == Some(ApiClient.GetPrompts(PromptQuery(old(page), old(searchTerm), old(activeFilter))))
                && (Succeeded(reloadOut) ==> ListFrom(reloadOut))
                && (!Succeeded(reloadOut) ==> ListUnchanged())
      ensures !(sent.Some? && Succeeded(out)) ==>
                reloadSent.None? && ListUnchanged() && ControlsUnchanged() && DialogsUnchanged()
      ensures searchTerm == old(searchTerm) && activeFilter == old(activeFilter)
      ensures promptKeys == old(promptKeys) && deleteTarget == old(deleteTarget) && restoringId == old(restoringId)
    {
      reloadSent := None;
      var dto := CreateDto(form, isJson);
      if dto.None? {
        sent := None;
        return;
      }
      sent := Some(ApiClient.CreatePrompt(dto.value));
      if Succeeded(out) {
        showCreateModal := false;
        form := EMPTY_FORM;
        var r := LoadPrompts(reloadOut);
        reloadSent := Some(r);
        page := 1;
      }
    }

    /** The search box's `onChange`: only the term changes. */
    method SetSearchTerm(term: string)
      modifies this
      ensures searchTerm == term && page == old(page) && activeFilter == old(activeFilter)
      ensures ListUnchanged() && DialogsUnchanged()
    {
      searchTerm := term;
    }

    /** `handleSearch`: back to page 1 and reload (with the page the handler started with). */
    method HandleSearch(reloadOut: Outcome<seq<Prompt>>) returns (reloadSent: ApiClient.Request)
      modifies this
      ensures reloadSent == ApiClient.GetPrompts(PromptQuery(old(page), searchTerm, activeFilter))
      ensures page == 1 && searchTerm == old(searchTerm) && activeFilter == old(activeFilter)
      ensures Succeeded(reloadOut) ==> ListFrom(reloadOut)
      ensures !Succeeded(reloadOut) ==> ListUnchanged()
      ensures DialogsUnchanged()
    {
      reloadSent := LoadPrompts(reloadOut);
      page := 1;
    }

    /** The status select's `onChange`: a new filter always restarts at page 1. */
    method SetActiveFilter(value: string)
      modifies this
      ensures activeFilter == value && page == 1 && searchTerm == old(searchTerm)
      ensures ListUnchanged() && DialogsUnchanged()
    {
      activeFilter := value;
      page := 1;
    }

    method GoToPrevPage()
      modifies this
      ensures page == PrevPage(old(page))
      ensures searchTerm == old(searchTerm) && activeFilter == old(activeFilter)
      ensures ListUnchanged() && DialogsUnchanged()
    {
      page := PrevPage(page);
    }

    method GoToNextPage()
      modifies this
      ensures page == NextPage(old(page), totalPages)
      ensures searchTerm == old(searchTerm) && activeFilter == old(activeFilter)
      ensures ListUnchanged() && DialogsUnchanged()
    {
      page := NextPage(page, totalPages);
    }

    /** The Delete button of an active row opens the confirmation for that prompt. */
    method AskDelete(p: Prompt)
      modifies this
      ensures deleteTarget == Some(p)
      ensures ListUnchanged() && ControlsUnchanged()
      ensures promptKeys == old(promptKeys) && showCreateModal == old(showCreateModal)
      ensures form == old(form) && restoringId == old(restoringId)
    {
      deleteTarget := Some(p);
    }

    method CancelDelete()
      modifies this
      ensures deleteTarget == None
      ensures ListUnchanged() && ControlsUnchanged()
      ensures promptKeys == old(promptKeys) && showCreateModal == old(showCreateModal)
      ensures form == old(form) && restoringId == old(restoringId)
    {
      deleteTarget := None;
    }

    /** `handleDelete`: without a target nothing happens; a successful delete closes the
        confirmation and reloads the list. */
    method HandleDelete(out: Outcome<Prompt>, reloadOut: Outcome<seq<Prompt>>)
      returns (sent: Option<ApiClient.Request>, reloadSent: Option<ApiClient.Request>)
      modifies this
      ensures old(deleteTarget).None? ==> sent.None?
      ensures old(deleteTarget).Some? ==> sent == Some(ApiClient.DeletePrompt(old(deleteTarget).value.id))
      ensures sent.Some? && Succeeded(out) ==>
                && deleteTarget == None
                && reloadSent == Some(ApiClient.GetPrompts(PromptQuery(page, searchTerm, activeFilter)))
                && (Succeeded(reloadOut) ==> ListFrom(reloadOut))
                && (!Succeeded(reloadOut) ==> ListUnchanged())
      ensures !(sent.Some? && Succeeded(out)) ==> reloadSent.None? && ListUnchanged() && deleteTarget == old(deleteTarget)
      ensures ControlsUnchanged()
      ensures promptKeys == old(promptKeys) && showCreateModal == old(showCreateModal)
      ensures form == old(form) && restoringId == old(restoringId)
    {
      reloadSent := None;
      if deleteTarget.None? {
        sent := None;
        return;
      }
      sent := Some(ApiClient.DeletePrompt(deleteTarget.value.id));
      if Succeeded(out) {
        deleteTarget := None;
        var r := LoadPrompts(reloadOut);
        reloadSent := Some(r);
      }
    }

    /** `handleRestore`: the restore is sent for that prompt, a success reloads the list,
        and `restoringId` is cleared however the call ends. */
    method HandleRestore(p: Prompt, out: Outcome<Prompt>, reloadOut: Outcome<seq<Prompt>>)
      returns (sent: ApiClient.Request, reloadSent: Option<ApiClient.Request>)
      modifies this
      ensures sent == ApiClient.RestorePrompt(p.id)
      ensures Succeeded(out) ==>
                && reloadSent == Some(ApiClient.GetPrompts(PromptQuery(page, searchTerm, activeFilter)))
                && (Succeeded(reloadOut) ==> ListFrom(reloadOut))
                && (!Succeeded(reloadOut) ==> ListUnchanged())
      ensures !Succeeded(out) ==> reloadSent.None? && ListUnchanged()
      ensures restoringId == None
      ensures ControlsUnchanged()
      ensures promptKeys == old(promptKeys) && showCreateModal == old(showCreateModal)
      ensures form == old(form) && deleteTarget == old(deleteTarget)
    {
      restoringId := Some(p.id);
      sent := ApiClient.RestorePrompt(p.id);
      reloadSent := None;
      if Succeeded(out) {
        var r := LoadPrompts(reloadOut);
        reloadSent := Some(r);
      }
      restoringId := None;
    }
  }
}
