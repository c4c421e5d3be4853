/**
 * `BuilderController` (app.js:689-775): the three-stage SOP builder. The controller's `state`
 * object is a class whose fields the "Next", "Back" and "Generate" handlers update; the form
 * fields' values are passed to the handlers as they were typed.
 */
module Wizard {
  import opened Wrappers
  import opened Text
  import Template
  import StoreSpec
  import Ids

  /** What the builder has collected so far (`state.payload`). */
  datatype Payload = Payload(
    firstName: Option<string>, lastName: Option<string>, company: Option<string>,
    category: Option<string>, title: Option<string>, brief: Option<string>)

  const EMPTY_PAYLOAD := Payload(None, None, None, None, None, None)

  /** The stand-in brief when only a video was attached. */
  const VIDEO_BRIEF := "(Video brief attached in production)"

  /** A collected value: present, trimmed and not empty. */
  predicate Filled(v: Option<string>) {
    v.Some? && v.value != [] && IsTrimmed(v.value)
  }

  predicate HasIdentity(p: Payload) {
    Filled(p.firstName) && Filled(p.lastName) && Filled(p.company) && Filled(p.category) && Filled(p.title)
  }

  /** The `length` values the two "Generate" buttons carry. */
  predicate IsLength(length: string) {
    length == "13" || length == "26"
  }

  class BuilderController {
    var stage: nat
    var payload: Payload

    /** Stage 2 is only reached with all five identity fields filled in, and stage 3 only with a
        brief as well. */
    predicate Valid()
      reads this
    {
      && 1 <= stage <= 3
      && (stage >= 2 ==> HasIdentity(payload))
      && (stage == 3 ==> Filled(payload.brief))
    }

    /** `{ stage: 1, payload: {} }` */
    constructor ()
      ensures Valid() && stage == 1 && payload == EMPTY_PAYLOAD
    {
      stage := 1;
      payload := EMPTY_PAYLOAD;
    }

    /** Stage 1 "Next": all five trimmed values must be non-empty, otherwise nothing changes. */
    method SubmitIdentity(firstName: string, lastName: string, company: string, category: string,
                          title: string) returns (accepted: bool)
      requires Valid() && stage == 1
      modifies this
      ensures Valid()
      ensures accepted <==> Trim(firstName) != [] && Trim(lastName) != [] && Trim(company) != []
                            && Trim(category) != [] && Trim(title) != []
      ensures accepted ==> stage == 2 && payload == old(payload).(
        firstName := Some(Trim(firstName)), lastName := Some(Trim(lastName)),
        company := Some(Trim(company)), category := Some(Trim(category)), title := Some(Trim(title)))
      ensures !accepted ==> stage == old(stage) && payload == old(payload)
    {
      var f, l, c, g, t := Trim(firstName), Trim(lastName), Trim(company), Trim(category), Trim(title);
      if f == [] || l == [] || c == [] || g == [] || t == [] {
        return false;
      }
      payload := payload.(firstName := Some(f), lastName := Some(l), company := Some(c),
                          category := Some(g), title := Some(t));
      stage := 2;
      accepted := true;
    }

    /** Stage 2 "Next": a non-empty trimmed brief, or an attached video file, which stands in
        as a fixed brief; with neither, nothing changes. */
    method SubmitBrief(brief: string, videoAttached: bool) returns (accepted: bool)
      requires Valid() && stage == 2
      modifies this
      ensures Valid()
      ensures accepted <==> Trim(brief) != [] || videoAttached
      ensures accepted ==> stage == 3 && payload == old(payload).(
        brief := Some(if Trim(brief) != [] then Trim(brief) else VIDEO_BRIEF))
      ensures !accepted ==> stage == old(stage) && payload == old(payload)
    {
      var b := Trim(brief);
      if b == [] && !videoAttached {
        return false;
      }
      assert IsTrimmed(VIDEO_BRIEF) by {
        assert !IsSpace(VIDEO_BRIEF[0]) && !IsSpace(VIDEO_BRIEF[|VIDEO_BRIEF| - 1]);
      }
      payload := payload.(brief := Some(if b != [] then b else VIDEO_BRIEF));
      stage := 3;
      accepted := true;
    }

    /** "Back" on stage 2 or 3: one stage back, keeping what was collected. */
    method Back()
      requires Valid() && stage >= 2
      modifies this
      ensures Valid()
      ensures stage == old(stage) - 1 && payload == old(payload)
    {
      stage := stage - 1;
    }

    /** The form `buildSOP` receives: `{ ...state.payload, length }`. */
    function Input(length: string): Template.SopInput
      requires Valid() && stage == 3
      reads this
    {
      Template.SopInput(payload.firstName.value, payload.lastName.value, payload.company.value,
                        payload.category.value, payload.title.value, payload.brief, length)
    }

    /** A "Generate" button: the SOP built from the collected values, in the shape the save
        handler stores it. `dateText`, `idDraw` and `createdAt` stand for the clock and the
        random draw. */
    method Generate(length: string, dateText: string, idDraw: nat, createdAt: string)
      returns (sop: StoreSpec.SavedSop)
      requires Valid() && stage == 3 && IsLength(length) && idDraw < 900000
      ensures sop.title == payload.title.value && sop.category == payload.category.value
      ensures sop.length == length && sop.length in StoreSpec.HOURS_PER_SOP && sop.createdAt == createdAt
      ensures sop.content == Template.BuildSop(Input(length), dateText, idDraw)
      ensures "0.0 EXECUTIVE SUMMARY\n" <= sop.content && IsTrimmed(sop.content)
      ensures EndsWith(sop.content, Template.GeneratedLine(dateText, Ids.DocumentId(idDraw)))
    {
      var content := Template.BuildSop(Input(length), dateText, idDraw);
      Template.BuildSopLayout(Input(length), dateText, idDraw);
      sop := StoreSpec.SavedSop(payload.title.value, payload.category.value, length, createdAt, content);
    }
  }
}
