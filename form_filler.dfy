/**
 * The form filler: which question block and which element inside it receive
 * each value, the fixed order of the fields, the date-of-birth reorder, the
 * fail-fast policy, and the outcome of the whole run (set up, fill, submit,
 * always close).
 *
 * The browser is an oracle. `Page` says what the loaded form offers: whether
 * the first question shows up within the wait, the elements of the question
 * block found for each label, and whether a Submit control can be clicked.
 * `Browser` records what is done to the page.
 */
module FormFiller {
  import opened Wrappers
  import opened Text
  import Config

  datatype Tag = InputTag | TextAreaTag | OtherTag

  /** An element inside a question block, in document order; `typeAttr` is "" when absent. */
  datatype Element = Element(tag: Tag, typeAttr: string, interactable: bool)

  datatype Page = Page(ready: bool, blocks: map<string, seq<Element>>, submitClickable: bool)

  /** `.//input[not(@type='radio') and not(@type='checkbox')]` */
  predicate IsTextInput(e: Element)
  {
    e.tag == InputTag && e.typeAttr != "radio" && e.typeAttr != "checkbox"
  }

  /** `.//textarea` */
  predicate IsTextArea(e: Element)
  {
    e.tag == TextAreaTag
  }

  /** `.//input[not(@type='radio') and not(@type='checkbox')]`: the first such element in document order. */
  function FirstTextInput(s: seq<Element>): (r: Option<nat>)
    ensures r.Some? ==> r.value < |s| && IsTextInput(s[r.value])
    ensures r.Some? ==> forall j :: 0 <= j < r.value ==> !IsTextInput(s[j])
    ensures r.None? ==> forall j :: 0 <= j < |s| ==> !IsTextInput(s[j])
  {
    if s == [] then None
    else if IsTextInput(s[0]) then Some(0)
    else
      match FirstTextInput(s[1..])
      case None => None
      case Some(i) => Some(i + 1)
  }

  /** `.//textarea`: the first such element in document order. */
  function FirstTextArea(s: seq<Element>): (r: Option<nat>)
    ensures r.Some? ==> r.value < |s| && IsTextArea(s[r.value])
    ensures r.Some? ==> forall j :: 0 <= j < r.value ==> !IsTextArea(s[j])
    ensures r.None? ==> forall j :: 0 <= j < |s| ==> !IsTextArea(s[j])
  {
    if s == [] then None
    else if IsTextArea(s[0]) then Some(0)
    else
      match FirstTextArea(s[1..])
      case None => None
      case Some(i) => Some(i + 1)
  }

  /**
   * The element of a question block that receives the text: the first input
   * that is neither a radio button nor a checkbox, else the first textarea.
   */
  function ChooseField(block: seq<Element>): (r: Option<nat>)
    ensures r.None? <==> forall j :: 0 <= j < |block| ==> !IsTextInput(block[j]) && !IsTextArea(block[j])
    ensures r.Some? ==> r.value < |block|
    ensures r.Some? && (exists j :: 0 <= j < |block| && IsTextInput(block[j])) ==>
      IsTextInput(block[r.value]) && forall j :: 0 <= j < r.value ==> !IsTextInput(block[j])
    ensures r.Some? && (forall j :: 0 <= j < |block| ==> !IsTextInput(block[j])) ==>
      IsTextArea(block[r.value]) && forall j :: 0 <= j < r.value ==> !IsTextArea(block[j])
  {
    match FirstTextInput(block)
    case Some(i) => Some(i)
    case None => FirstTextArea(block)
  }

  /** What one call of `fill_field` comes to. */
  datatype FieldOutcome =
    | Skipped            // empty value: nothing is looked up or typed
    | Entered(index: nat) // the text was typed into element `index` of the block
    | NoQuestionBlock    // no block contains the label within the wait
    | NoInputInBlock     // the block has neither a text input nor a textarea
    | InteractionFailed  // clearing or typing into the chosen element raised

  predicate Succeeded(o: FieldOutcome)
  {
    o.Skipped? || o.Entered?
  }

  function FieldOutcomeOf(page: Page, fieldLabel: string, value: string): (o: FieldOutcome)
    ensures o.Skipped? <==> value == ""
    ensures o.Entered? ==> fieldLabel in page.blocks && o.index < |page.blocks[fieldLabel]|
    ensures o.Entered? ==> page.blocks[fieldLabel][o.index].interactable
    ensures o.Entered? ==> IsTextInput(page.blocks[fieldLabel][o.index]) || IsTextArea(page.blocks[fieldLabel][o.index])
    ensures o.Entered? ==> ChooseField(page.blocks[fieldLabel]) == Some(o.index)
    ensures value != "" ==>
      (Succeeded(o) <==>
         && fieldLabel in page.blocks
         && ChooseField(page.blocks[fieldLabel]).Some?
         && page.blocks[fieldLabel][ChooseField(page.blocks[fieldLabel]).value].interactable)
  {
    if value == "" then Skipped
    else if fieldLabel !in page.blocks then NoQuestionBlock
    else
      match ChooseField(page.blocks[fieldLabel])
      case None => NoInputInBlock
      case Some(i) => if page.blocks[fieldLabel][i].interactable then Entered(i) else InteractionFailed
  }

  /** A call `fill_field(label, value)`. */
  datatype Attempt = Attempt(fieldLabel: string, value: string)

  /** Text typed into element `index` of the question block for its label. */
  datatype Entry = Entry(fieldLabel: string, index: nat, text: string)

  function EntriesOf(o: FieldOutcome, a: Attempt): seq<Entry>
  {
    if o.Entered? then [Entry(a.fieldLabel, o.index, a.value)] else []
  }

  /** `form_data.get(key, '')` */
  function Lookup(data: map<string, string>, key: string): (r: string)
    ensures key in data ==> r == data[key]
    ensures key !in data ==> r == ""
  {
    if key in data then data[key] else ""
  }

  /**
   * The date of birth as it is typed: `d/m/y` becomes `m/d/y`; a value that
   * does not split into exactly three parts at `/` is not entered at all.
   */
  function DobForEntry(dob: string): (r: Option<string>)
    ensures r.Some? ==> '/' in dob && '/' in r.value && |r.value| == |dob|
  {
    if '/' in dob then
      var parts := Split(dob, '/');
      if |parts| == 3 then
        JoinSplit(dob, '/');
        JoinThree(parts[0], parts[1], parts[2], "/");
        assert parts == [parts[0], parts[1], parts[2]];
        Some(parts[1] + "/" + parts[0] + "/" + parts[2])
      else None
    else None
  }

  /** The date-of-birth call, present only when the date can be reordered. */
  function DobPart(data: map<string, string>): seq<Attempt>
  {
    match DobForEntry(Lookup(data, "Date of Birth"))
    case Some(d) => [Attempt("Date of Birth", d)]
    case None => []
  }

  /** The five contact fields, attempted first. */
  function ContactPlan(data: map<string, string>): seq<Attempt>
  {
    [ Attempt("Full Name", Lookup(data, "Full Name")),
      Attempt("Contact Number", Lookup(data, "Contact Number")),
      Attempt("Email ID", Lookup(data, "Email ID")),
      Attempt("Full Address", Lookup(data, "Full Address")),
      Attempt("Pin Code", Lookup(data, "Pin Code")) ]
  }

  /** The date of birth when it can be reordered, the gender and the verification code. */
  function RemainingPlan(data: map<string, string>): seq<Attempt>
  {
    DobPart(data)
    + [ Attempt("Gender", Lookup(data, "Gender")),
        Attempt("Type this code", Lookup(data, "Verification Code")) ]
  }

  /** The key of the form data whose value goes into the field with this label. */
  function DataKey(fieldLabel: string): string
  {
    if fieldLabel == "Type this code" then "Verification Code" else fieldLabel
  }

  /**
   * The calls `fill_form` makes, in order, when every one of them succeeds:
   * seven, or eight when the date of birth can be reordered.
   */
  function FormPlan(data: map<string, string>): (plan: seq<Attempt>)
    ensures |plan| == if DobForEntry(Lookup(data, "Date of Birth")).Some? then 8 else 7
  {
    ContactPlan(data) + RemainingPlan(data)
  }

  /** Each field is attempted at most once, from "Full Name" to "Type this code". */
  lemma FormPlanOrder(data: map<string, string>)
    ensures var plan := FormPlan(data);
      && plan[0].fieldLabel == "Full Name" && plan[|plan| - 1].fieldLabel == "Type this code"
      && forall i, j :: 0 <= i < j < |plan| ==> plan[i].fieldLabel != plan[j].fieldLabel
  {
    var contact := ContactPlan(data);
    var tail := [Attempt("Gender", Lookup(data, "Gender")), Attempt("Type this code", Lookup(data, "Verification Code"))];
    match DobForEntry(Lookup(data, "Date of Birth"))
    case Some(d) =>
      assert FormPlan(data) == contact + [Attempt("Date of Birth", d)] + tail;
    case None =>
      assert FormPlan(data) == contact + tail;
  }

  /** The date of birth is attempted only in its reordered form. */
  lemma FormPlanDob(data: map<string, string>)
    ensures forall a :: a in FormPlan(data) && a.fieldLabel == "Date of Birth" ==>
              DobForEntry(Lookup(data, "Date of Birth")) == Some(a.value)
  {
    var contact := ContactPlan(data);
    var tail := [Attempt("Gender", Lookup(data, "Gender")), Attempt("Type this code", Lookup(data, "Verification Code"))];
    assert forall a: Attempt :: a in contact + tail ==> a.fieldLabel != "Date of Birth";
  }

  /** Every field but the date of birth is attempted with the value the form data holds for it. */
  lemma FormPlanValues(data: map<string, string>)
    ensures forall a :: a in FormPlan(data) && a.fieldLabel != "Date of Birth" ==>
              a.value == Lookup(data, DataKey(a.fieldLabel))
  {
    var contact := ContactPlan(data);
    var tail := [Attempt("Gender", Lookup(data, "Gender")), Attempt("Type this code", Lookup(data, "Verification Code"))];
    assert forall a: Attempt :: a in contact + tail ==> a.value == Lookup(data, DataKey(a.fieldLabel));
  }

  datatype FillResult = FillResult(ok: bool, attempted: seq<Attempt>, entered: seq<Entry>)

  /**
   * Running a plan with fail-fast: stop at the first attempt that does not
   * succeed. The calls made are a prefix of the plan, all of it on success
   * and at least one call on failure; at most one entry is typed per call.
   */
  function RunPlan(page: Page, plan: seq<Attempt>): (r: FillResult)
    ensures |r.entered| <= |r.attempted| <= |plan|
    ensures !r.ok ==> r.attempted != []
  {
    if plan == [] then FillResult(true, [], [])
    else
      var o := FieldOutcomeOf(page, plan[0].fieldLabel, plan[0].value);
      if !Succeeded(o) then FillResult(false, [plan[0]], [])
      else
        var rest := RunPlan(page, plan[1..]);
        FillResult(rest.ok, [plan[0]] + rest.attempted, EntriesOf(o, plan[0]) + rest.entered)
  }

  /** One `fill_field` call of `fill_form`, made only while every earlier call succeeded. */
  function Step(page: Page, a: Attempt, r: FillResult): FillResult
  {
    if !r.ok then r
    else
      var o := FieldOutcomeOf(page, a.fieldLabel, a.value);
      FillResult(Succeeded(o), r.attempted + [a], r.entered + EntriesOf(o, a))
  }

  /** The calls of `plan` made one after the other, each only while the earlier ones succeeded. */
  function Steps(page: Page, plan: seq<Attempt>, r: FillResult): FillResult
  {
    if plan == [] then r else Steps(page, plan[1..], Step(page, plan[0], r))
  }

  // ----- Properties of the date-of-birth reorder -----

  /** The three parts are kept as they are; only the first two change places. */
  lemma DobSwapsFirstTwoParts(dob: string)
    ensures DobForEntry(dob).Some? <==> |Split(dob, '/')| == 3
    ensures DobForEntry(dob).Some? ==>
      var p := Split(dob, '/');
      Split(DobForEntry(dob).value, '/') == [p[1], p[0], p[2]]
  {
    var p := Split(dob, '/');
    if |p| == 3 {
      SplitJoin([p[1], p[0], p[2]], '/');
      JoinThree(p[1], p[0], p[2], "/");
    }
  }

  /** A date of birth without `/`, or with other than two of them, is not entered. */
  lemma DobMalformedNotEntered(dob: string)
    requires '/' !in dob || |Split(dob, '/')| != 3
    ensures DobForEntry(dob) == None
  {
  }

  /** Reordering twice gives back the original text. */
  lemma DobReorderInvolution(dob: string)
    requires DobForEntry(dob).Some?
    ensures DobForEntry(DobForEntry(dob).value) == Some(dob)
  {
    var p := Split(dob, '/');
    var e := DobForEntry(dob).value;
    DobSwapsFirstTwoParts(dob);
    assert Split(e, '/') == [p[1], p[0], p[2]];
    JoinSplit(dob, '/');
    JoinThree(p[0], p[1], p[2], "/");
    assert p == [p[0], p[1], p[2]];
  }

  /** A day/month/year date is typed month/day/year. */
  lemma DobReorder(day: string, month: string, year: string)
    requires '/' !in day && '/' !in month && '/' !in year
    ensures DobForEntry(day + "/" + month + "/" + year) == Some(month + "/" + day + "/" + year)
  {
    var parts := [day, month, year];
    JoinThree(day, month, year, "/");
    SplitJoin(parts, '/');
    assert (day + "/" + month + "/" + year)[|day|] == '/';
  }

  /** The example in the source: `25/12/1990` is typed as `12/25/1990`. */
  lemma DobExample()
    ensures DobForEntry("25/12/1990") == Some("12/25/1990")
  {
    DobReorder("25", "12", "1990");
    assert "25" + "/" + "12" + "/" + "1990" == "25/12/1990";
    assert "12" + "/" + "25" + "/" + "1990" == "12/25/1990";
  }

  // ----- Properties of the plan and of running it -----

  /**
   * A key missing from the form data yields an empty value: its call
   * succeeds without typing, so the fill goes on, and nothing empty is typed.
   */
  lemma MissingKeySkipped(page: Page, data: map<string, string>, i: nat)
    requires i < |FormPlan(data)|
    requires FormPlan(data)[i].value == ""
    ensures FieldOutcomeOf(page, FormPlan(data)[i].fieldLabel, FormPlan(data)[i].value) == Skipped
    ensures forall e :: e in RunPlan(page, FormPlan(data)).entered ==> e.text != ""
  {
    EnteredTextNonEmpty(page, FormPlan(data));
  }

  /** Nothing empty is ever typed. */
  lemma {:induction false} EnteredTextNonEmpty(page: Page, plan: seq<Attempt>)
    ensures forall e :: e in RunPlan(page, plan).entered ==> e.text != ""
  {
    if plan != [] {
      EnteredTextNonEmpty(page, plan[1..]);
    }
  }

  /** The run succeeds exactly when every planned call succeeds, and then all of them were made. */
  lemma {:induction false} RunPlanOk(page: Page, plan: seq<Attempt>)
    ensures RunPlan(page, plan).ok <==>
      forall i :: 0 <= i < |plan| ==> Succeeded(FieldOutcomeOf(page, plan[i].fieldLabel, plan[i].value))
    ensures RunPlan(page, plan).ok ==> RunPlan(page, plan).attempted == plan
  {
    if plan != [] {
      RunPlanOk(page, plan[1..]);
      assert plan == [plan[0]] + plan[1..];
      if Succeeded(FieldOutcomeOf(page, plan[0].fieldLabel, plan[0].value)) {
        forall i | 0 < i < |plan|
          ensures plan[i] == plan[1..][i - 1]
        {
        }
      }
    }
  }

  /**
   * Fail-fast: a failed run stopped at the first call that failed; that call
   * was the last one made, and every call before it succeeded.
   */
  lemma RunPlanFailFast(page: Page, plan: seq<Attempt>)
    requires !RunPlan(page, plan).ok
    ensures exists k ::
      && 0 <= k < |plan|
      && RunPlan(page, plan).attempted == plan[..k + 1]
      && !Succeeded(FieldOutcomeOf(page, plan[k].fieldLabel, plan[k].value))
      && (forall j :: 0 <= j < k ==> Succeeded(FieldOutcomeOf(page, plan[j].fieldLabel, plan[j].value)))
  {
    RunPlanFailedLast(page, plan);
    RunPlanPrefix(page, plan);
    var k := |RunPlan(page, plan).attempted| - 1;
    assert RunPlan(page, plan).attempted == plan[..k + 1];
  }

  /** The calls made are the plan's first ones, in the plan's order. */
  lemma {:induction false} RunPlanPrefix(page: Page, plan: seq<Attempt>)
    ensures RunPlan(page, plan).attempted <= plan
  {
    if plan != [] && Succeeded(FieldOutcomeOf(page, plan[0].fieldLabel, plan[0].value)) {
      RunPlanPrefix(page, plan[1..]);
      assert plan == [plan[0]] + plan[1..];
    }
  }

  /** The last call a failed run made is the one that failed, and every earlier one succeeded. */
  lemma {:induction false} RunPlanFailedLast(page: Page, plan: seq<Attempt>)
    requires !RunPlan(page, plan).ok
    ensures var k := |RunPlan(page, plan).attempted| - 1;
      && !Succeeded(FieldOutcomeOf(page, plan[k].fieldLabel, plan[k].value))
      && forall j :: 0 <= j < k ==> Succeeded(FieldOutcomeOf(page, plan[j].fieldLabel, plan[j].value))
  {
    if Succeeded(FieldOutcomeOf(page, plan[0].fieldLabel, plan[0].value)) {
      RunPlanFailedLast(page, plan[1..]);
      forall j | 1 <= j < |plan|
        ensures plan[j] == plan[1..][j - 1]
      {
      }
    }
  }

  /** After a failed call no further call is made. */
  lemma {:induction false} StepsStopped(page: Page, plan: seq<Attempt>, r: FillResult)
    requires !r.ok
    ensures Steps(page, plan, r) == r
  {
    if plan != [] {
      StepsStopped(page, plan[1..], r);
    }
  }

  /** The first call of a plan, then the others. */
  lemma StepsCons(page: Page, a: Attempt, plan: seq<Attempt>, r: FillResult)
    ensures Steps(page, [a] + plan, r) == Steps(page, plan, Step(page, a, r))
  {
    assert ([a] + plan)[1..] == plan;
  }

  /** Running two plans one after the other is running their concatenation. */
  lemma {:induction false} StepsAppend(page: Page, first: seq<Attempt>, second: seq<Attempt>, r: FillResult)
    ensures Steps(page, first + second, r) == Steps(page, second, Steps(page, first, r))
  {
    if first != [] {
      assert (first + second)[1..] == first[1..] + second;
      StepsAppend(page, first[1..], second, Step(page, first[0], r));
    } else {
      assert first + second == second;
    }
  }

  /**
   * Making the calls one at a time, each appending to the logs, comes to the
   * fail-fast run of the plan placed after what the logs held before.
   */
  lemma {:induction false} StepsIsRunPlan(page: Page, plan: seq<Attempt>, before: seq<Attempt>, typedBefore: seq<Entry>)
    ensures Steps(page, plan, FillResult(true, before, typedBefore))
         == var r := RunPlan(page, plan); FillResult(r.ok, before + r.attempted, typedBefore + r.entered)
  {
    if plan != [] {
      var a := plan[0];
      var o := FieldOutcomeOf(page, a.fieldLabel, a.value);
      var r1 := Step(page, a, FillResult(true, before, typedBefore));
      if Succeeded(o) {
        StepsIsRunPlan(page, plan[1..], before + [a], typedBefore + EntriesOf(o, a));
        var rest := RunPlan(page, plan[1..]);
        assert before + [a] + rest.attempted == before + ([a] + rest.attempted);
        assert typedBefore + EntriesOf(o, a) + rest.entered == typedBefore + (EntriesOf(o, a) + rest.entered);
      } else {
        StepsStopped(page, plan[1..], r1);
      }
    }
  }

  // ----- The browser and the filler -----

  /** `os.path.join(dir, f'{name}_{timestamp}.png')` */
  function ScreenshotPath(dir: string, name: string, now: string): (p: string)
    ensures dir <= p
    ensures |p| >= |name| + |now| + 5 && p[|p| - |name| - |now| - 5..] == name + "_" + now + ".png"
  {
    PathJoin(dir, name + "_" + now + ".png")
  }

  /** The screenshot file is named after the stage and the time, whatever the directory. */
  lemma ScreenshotFileName(dir: string, name: string, now: string)
    requires '/' !in name && '/' !in now
    ensures Basename(ScreenshotPath(dir, name, now)) == name + "_" + now + ".png"
  {
    BasenameOfPathJoin(dir, name + "_" + now + ".png");
  }

  /** The Chrome session: the page it shows (an oracle) and what has been done to it. */
  class Browser {
    const page: Page
    const canSave: bool       // whether `save_screenshot` does not raise
    var visited: seq<string>
    var typed: seq<Entry>
    var saved: seq<string>
    var submitted: bool
    var quit: bool

    constructor (page: Page, canSave: bool)
      ensures this.page == page && this.canSave == canSave
      ensures visited == [] && typed == [] && saved == [] && !submitted && !quit
    {
      this.page := page;
      this.canSave := canSave;
      visited, typed, saved := [], [], [];
      submitted, quit := false, false;
    }

    /** `driver.get(url)` */
    method Get(url: string)
      modifies this`visited
      ensures visited == old(visited) + [url]
    {
      visited := visited + [url];
    }

    /** `field.clear(); field.send_keys(text)` on element `index` of the block for `fieldLabel`. */
    method TypeInto(fieldLabel: string, index: nat, text: string) returns (ok: bool)
      requires fieldLabel in page.blocks && index < |page.blocks[fieldLabel]|
      modifies this`typed
      ensures ok == page.blocks[fieldLabel][index].interactable
      ensures typed == old(typed) + (if ok then [Entry(fieldLabel, index, text)] else [])
    {
      ok := page.blocks[fieldLabel][index].interactable;
      if ok {
        typed := typed + [Entry(fieldLabel, index, text)];
      }
    }

    /** `driver.save_screenshot(path)`: `ok` is false when the call raises; a failed file write is not modelled. */
    method SaveScreenshot(path: string) returns (ok: bool)
      modifies this`saved
      ensures ok == canSave
      ensures saved == old(saved) + (if ok then [path] else [])
    {
      ok := canSave;
      if ok {
        saved := saved + [path];
      }
    }

    /** Waiting for a clickable Submit span and clicking it. */
    method ClickSubmit() returns (ok: bool)
      modifies this`submitted
      ensures ok == page.submitClickable
      ensures submitted == (old(submitted) || ok)
    {
      ok := page.submitClickable;
      if ok {
        submitted := true;
      }
    }

    /** `driver.quit()` */
    method Quit()
      modifies this`quit
      ensures quit
    {
      quit := true;
    }
  }

  /** `GoogleFormFiller`: the form URL, the screenshot directory and the driver once set up. */
  class GoogleFormFiller {
    const formUrl: string
    const screenshotDir: string
    var driver: Browser?
    /** The `fill_field` calls made so far. */
    ghost var attempts: seq<Attempt>

    constructor (formUrl: string, screenshotDir: string)
      ensures this.formUrl == formUrl && this.screenshotDir == screenshotDir
      ensures driver == null && attempts == []
    {
      this.formUrl := formUrl;
      this.screenshotDir := screenshotDir;
      driver := null;
      attempts := [];
    }

    /** The driver as a set of objects, empty before set-up. */
    function Driver(): set<Browser>
      reads this
    {
      if driver == null then {} else {driver}
    }

    /** `setup_driver`: `launched` is the session Chrome starts, or null when starting it raises. */
    method SetupDriver(launched: Browser?) returns (ok: bool)
      modifies this`driver
      ensures ok <==> launched != null
      ensures driver == if ok then launched else old(driver)
    {
      if launched == null {
        return false;
      }
      driver := launched;
      return true;
    }

    /** `fill_field(label, value)` */
    method FillField(fieldLabel: string, value: string) returns (ok: bool)
      modifies this`attempts, Driver()`typed
      ensures attempts == old(attempts) + [Attempt(fieldLabel, value)]
      ensures driver == null ==> ok == (value == "")
      ensures driver != null ==>
        FillResult(ok, attempts, driver.typed)
          == Step(driver.page, Attempt(fieldLabel, value), FillResult(true, old(attempts), old(driver.typed)))
    {
      attempts := attempts + [Attempt(fieldLabel, value)];
      if value == "" {
        return true;
      }
      if driver == null {
        return false;
      }
      if fieldLabel !in driver.page.blocks {
        return false;
      }
      var block := driver.page.blocks[fieldLabel];
      var choice := ChooseField(block);
      if choice.None? {
        return false;
      }
      ok := driver.TypeInto(fieldLabel, choice.value, value);
    }

    /** `capture_screenshot(name)`: the path, or None when `save_screenshot` raises. */
    method CaptureScreenshot(name: string, now: string) returns (path: Option<string>)
      modifies Driver()`saved
      ensures driver == null ==> path == None
      ensures driver != null ==>
        && path == (if driver.canSave then Some(ScreenshotPath(screenshotDir, name, now)) else None)
        && driver.saved == old(driver.saved) + (if driver.canSave then [ScreenshotPath(screenshotDir, name, now)] else [])
    {
      if driver == null {
        return None;
      }
      var p := ScreenshotPath(screenshotDir, name, now);
      var ok := driver.SaveScreenshot(p);
      path := if ok then Some(p) else None;
    }

    /** The first five field calls of `fill_form`, stopping at the first that fails. */
    method FillContactFields(data: map<string, string>) returns (ok: bool)
      requires driver != null
      modifies this`attempts, driver`typed
      ensures FillResult(ok, attempts, driver.typed)
           == Steps(driver.page, ContactPlan(data), FillResult(true, old(attempts), old(driver.typed)))
    {
      ghost var page := driver.page;
      // the calls still to make after each one, and the logs so far
      ghost var rest5 := [Attempt("Pin Code", Lookup(data, "Pin Code"))];
      ghost var rest4 := [Attempt("Full Address", Lookup(data, "Full Address"))] + rest5;
      ghost var rest3 := [Attempt("Email ID", Lookup(data, "Email ID"))] + rest4;
      ghost var rest2 := [Attempt("Contact Number", Lookup(data, "Contact Number"))] + rest3;
      assert ContactPlan(data) == [Attempt("Full Name", Lookup(data, "Full Name"))] + rest2;
      ghost var r := FillResult(true, attempts, driver.typed);

      ok := FillField("Full Name", Lookup(data, "Full Name"));
      StepsCons(page, Attempt("Full Name", Lookup(data, "Full Name")), rest2, r);
      r := FillResult(ok, attempts, driver.typed);
      if !ok { StepsStopped(page, rest2, r); return; }
      ok := FillField("Contact Number", Lookup(data, "Contact Number"));
      StepsCons(page, Attempt("Contact Number", Lookup(data, "Contact Number")), rest3, r);
      r := FillResult(ok, attempts, driver.typed);
      if !ok { StepsStopped(page, rest3, r); return; }
      ok := FillField("Email ID", Lookup(data, "Email ID"));
      StepsCons(page, Attempt("Email ID", Lookup(data, "Email ID")), rest4, r);
      r := FillResult(ok, attempts, driver.typed);
      if !ok { StepsStopped(page, rest4, r); return; }
      ok := FillField("Full Address", Lookup(data, "Full Address"));
      StepsCons(page, Attempt("Full Address", Lookup(data, "Full Address")), rest5, r);
      r := FillResult(ok, attempts, driver.typed);
      if !ok { StepsStopped(page, rest5, r); return; }
      ok := FillField("Pin Code", Lookup(data, "Pin Code"));
      StepsCons(page, Attempt("Pin Code", Lookup(data, "Pin Code")), [], r);
    }

    /**
     * The remaining field calls of `fill_form`: the date of birth, reordered
     * from day/month/year to month/day/year and left out when it does not
     * have that shape, then the gender and the verification code.
     */
    method FillRemainingFields(data: map<string, string>) returns (ok: bool)
      requires driver != null
      modifies this`attempts, driver`typed
      ensures FillResult(ok, attempts, driver.typed)
           == Steps(driver.page, RemainingPlan(data), FillResult(true, old(attempts), old(driver.typed)))
    {
      ghost var page := driver.page;
      ghost var rest8 := [Attempt("Type this code", Lookup(data, "Verification Code"))];
      ghost var rest7 := [Attempt("Gender", Lookup(data, "Gender"))] + rest8;
      assert RemainingPlan(data) == DobPart(data) + rest7;
      ghost var r := FillResult(true, attempts, driver.typed);
      ghost var start := r;

      var dob := Lookup(data, "Date of Birth");
      if '/' in dob {
        var parts := Split(dob, '/');
        if |parts| == 3 {
          var formatted := parts[1] + "/" + parts[0] + "/" + parts[2];
          assert DobPart(data) == [Attempt("Date of Birth", formatted)];
          ok := FillField("Date of Birth", formatted);
          StepsCons(page, Attempt("Date of Birth", formatted), rest7, r);
          r := FillResult(ok, attempts, driver.typed);
          if !ok { StepsStopped(page, rest7, r); return; }
        } else {
          assert DobPart(data) + rest7 == rest7;
        }
      } else {
        assert DobPart(data) + rest7 == rest7;
      }
      assert Steps(page, RemainingPlan(data), start) == Steps(page, rest7, r);

      ok := FillField("Gender", Lookup(data, "Gender"));
      StepsCons(page, Attempt("Gender", Lookup(data, "Gender")), rest8, r);
      r := FillResult(ok, attempts, driver.typed);
      if !ok { StepsStopped(page, rest8, r); return; }
      ok := FillField("Type this code", Lookup(data, "Verification Code"));
      StepsCons(page, Attempt("Type this code", Lookup(data, "Verification Code")), [], r);
    }

    /**
     * `fill_form(form_data)`: open the form, wait for it, fill the fields in
     * their fixed order stopping at the first failure, then take the
     * "2_filled" screenshot.
     */
    method FillForm(data: map<string, string>, now: string) returns (ok: bool)
      modifies this`attempts, Driver()`visited, Driver()`typed, Driver()`saved
      ensures driver == null ==> !ok && attempts == old(attempts)
      ensures driver != null ==>
        var page := driver.page;
        var r := RunPlan(page, FormPlan(data));
        && ok == (page.ready && r.ok)
        && driver.visited == old(driver.visited) + [formUrl]
        && attempts == old(attempts) + (if page.ready then r.attempted else [])
        && driver.typed == old(driver.typed) + (if page.ready then r.entered else [])
        && driver.saved == old(driver.saved) + (if ok && driver.canSave then [ScreenshotPath(screenshotDir, "2_filled", now)] else [])
    {
      if driver == null {
        return false;
      }
      driver.Get(formUrl);
      if !driver.page.ready {
        return false;
      }
      StepsIsRunPlan(driver.page, FormPlan(data), attempts, driver.typed);
      StepsAppend(driver.page, ContactPlan(data), RemainingPlan(data), FillResult(true, attempts, driver.typed));
      ok := FillContactFields(data);
      if !ok {
        StepsStopped(driver.page, RemainingPlan(data), FillResult(ok, attempts, driver.typed));
        return;
      }
      ok := FillRemainingFields(data);
      if !ok {
        return;
      }
      var _ := CaptureScreenshot("2_filled", now);
    }

    /**
     * `submit_form()`: click Submit and take the "5_confirmation" screenshot;
     * when no Submit control becomes clickable, take "5_submit_error"
     * instead. Either way the result is that screenshot's path, or None.
     */
    method SubmitForm(now: string) returns (path: Option<string>)
      modifies Driver()`submitted, Driver()`saved
      ensures driver == null ==> path == None
      ensures driver != null ==>
        var shot := ScreenshotPath(screenshotDir, SubmitShot(driver.page), now);
        && driver.submitted == (old(driver.submitted) || driver.page.submitClickable)
        && path == (if driver.canSave then Some(shot) else None)
        && driver.saved == old(driver.saved) + (if driver.canSave then [shot] else [])
    {
      if driver == null {
        return None;
      }
      var clicked := driver.ClickSubmit();
      if clicked {
        path := CaptureScreenshot("5_confirmation", now);
      } else {
        path := CaptureScreenshot("5_submit_error", now);
      }
    }

    /** `close()`: quit the browser if one was set up. */
    method Close()
      modifies Driver()`quit
      ensures driver != null ==> driver.quit
    {
      if driver != null {
        driver.Quit();
      }
    }
  }

  // ----- The whole run -----

  /** The stage name of the screenshot taken after the submit attempt. */
  function SubmitShot(page: Page): string
  {
    if page.submitClickable then "5_confirmation" else "5_submit_error"
  }

  /** The form loaded and every planned field call succeeded. */
  predicate Filled(page: Page, data: map<string, string>)
  {
    page.ready && RunPlan(page, FormPlan(data)).ok
  }

  /**
   * The timestamps `datetime.now()` gives at each screenshot a run may take:
   * after filling, after a failed fill, and after the submit attempt.
   */
  datatype Clock = Clock(filled: string, fillError: string, submit: string)

  /** What `automate_google_form` returns once Chrome has started. */
  function AutomationResult(page: Page, canSave: bool, data: map<string, string>, clock: Clock): (r: Option<string>)
    ensures r.Some? <==> Filled(page, data) && canSave
    ensures r.Some? ==> r.value == ScreenshotPath(Config.ScreenshotDir, SubmitShot(page), clock.submit)
  {
    if Filled(page, data) && canSave then Some(ScreenshotPath(Config.ScreenshotDir, SubmitShot(page), clock.submit))
    else None
  }

  /**
   * The screenshots `automate_google_form` saves once Chrome has started, in
   * order: none when saving raises; after a successful fill two, the last of
   * them the returned path; after a failed fill only the error screenshot.
   */
  function AutomationShots(page: Page, canSave: bool, data: map<string, string>, clock: Clock): (r: seq<string>)
    ensures |r| == if !canSave then 0 else if Filled(page, data) then 2 else 1
    ensures AutomationResult(page, canSave, data, clock).Some? ==>
      r[|r| - 1] == AutomationResult(page, canSave, data, clock).value
    ensures canSave && !Filled(page, data) ==> r == [ScreenshotPath(Config.ScreenshotDir, "4_fill_error", clock.fillError)]
  {
    if !canSave then []
    else if Filled(page, data) then
      [ScreenshotPath(Config.ScreenshotDir, "2_filled", clock.filled), ScreenshotPath(Config.ScreenshotDir, SubmitShot(page), clock.submit)]
    else [ScreenshotPath(Config.ScreenshotDir, "4_fill_error", clock.fillError)]
  }

  /**
   * A path comes back exactly when the form loaded, every planned field call
   * succeeded and the screenshot call did not raise.
   */
  lemma AutomationResultSome(page: Page, canSave: bool, data: map<string, string>, clock: Clock)
    ensures AutomationResult(page, canSave, data, clock).Some? <==>
      && page.ready && canSave
      && forall i :: 0 <= i < |FormPlan(data)| ==>
           Succeeded(FieldOutcomeOf(page, FormPlan(data)[i].fieldLabel, FormPlan(data)[i].value))
  {
    RunPlanOk(page, FormPlan(data));
  }

  /**
   * A Submit control that never becomes clickable still yields a path, that
   * of the "5_submit_error" screenshot: the caller cannot tell it from a
   * confirmation by the result alone, only by the file name.
   */
  lemma SubmitErrorStillYieldsPath(page: Page, canSave: bool, data: map<string, string>, clock: Clock)
    requires Filled(page, data) && canSave && !page.submitClickable
    requires '/' !in clock.submit
    ensures AutomationResult(page, canSave, data, clock).Some?
    ensures Basename(AutomationResult(page, canSave, data, clock).value) == "5_submit_error" + "_" + clock.submit + ".png"
  {
    ScreenshotFileName(Config.ScreenshotDir, "5_submit_error", clock.submit);
  }

  /**
   * `automate_google_form(form_url, form_data)`: set up the driver, fill the
   * form, submit it, and close the browser on every path. `launched` is the
   * session Chrome starts, or null when it does not start; `clock` gives the
   * timestamp each screenshot is named with.
   */
  method AutomateGoogleForm(formUrl: string, data: map<string, string>, launched: Browser?, clock: Clock)
    returns (result: Option<string>)
    modifies launched
    ensures launched == null ==> result == None
    ensures launched != null ==>
      var page := launched.page;
      var run := RunPlan(page, FormPlan(data));
      && result == AutomationResult(page, launched.canSave, data, clock)
      && launched.quit
      && launched.visited == old(launched.visited) + [formUrl]
      && launched.typed == old(launched.typed) + (if page.ready then run.entered else [])
      && launched.saved == old(launched.saved) + AutomationShots(page, launched.canSave, data, clock)
      && launched.submitted == (old(launched.submitted) || (Filled(page, data) && page.submitClickable))
  {
    var filler := new GoogleFormFiller(formUrl, Config.ScreenshotDir);
    var ok := filler.SetupDriver(launched);
    if !ok {
      filler.Close();
      return None;
    }
    ok := filler.FillForm(data, clock.filled);
    assert ok == Filled(launched.page, data);
    if !ok {
      var _ := filler.CaptureScreenshot("4_fill_error", clock.fillError);
      filler.Close();
      return None;
    }
    result := filler.SubmitForm(clock.submit);
    filler.Close();
  }
}
