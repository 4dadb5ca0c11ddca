/** `src/lib/utils/form.svelte.ts`: validation state of one input, and a
  * form that keeps the state of each named field together with a
  * validator per attached field. A validator's answer for the input's
  * current value is given: `None` for no message, `Some(m)` otherwise. */
module Form {
  import opened Wrappers

  /** `!m` is false: a message that is a non-empty string. */
  predicate Fails(m: Option<string>)
  {
    m.Some? && m.value != ""
  }

  /** The `{ valid, msg }` entry of a field. */
  datatype FieldState = FieldState(valid: bool, msg: Option<string>)

  /** The entry a blur or a validator run records: `valid: !m`,
    * `msg: m ?? undefined` (an empty message is kept). */
  function Checked(m: Option<string>): (f: FieldState)
    ensures f.valid <==> !Fails(m)
    ensures f.msg == m
  {
    FieldState(!Fails(m), m)
  }

  /** `createFieldValidation(args)`. */
  class FieldValidation {
    var valid: bool
    var msg: Option<string>

    constructor()
      ensures valid && msg == None
    {
      valid := true;
      msg := None;
    }

    /** `onblur`. */
    method Blur(m: Option<string>)
      modifies this
      ensures valid == !Fails(m) && msg == m
    {
      valid := !Fails(m);
      msg := m;
    }

    /** `oninput`: nothing while valid; otherwise only the message follows
      * the input (`m ? m : undefined`, so an empty message is dropped). */
    method Input(m: Option<string>)
      modifies this
      ensures valid == old(valid)
      ensures old(valid) ==> msg == old(msg)
      ensures !old(valid) ==> msg == if Fails(m) then m else None
    {
      if valid {
        return;
      }
      msg := if Fails(m) then m else None;
    }

    /** `reset()`. */
    method Reset()
      modifies this
      ensures valid && msg == None
    {
      valid := true;
      msg := None;
    }
  }

  /** `Form`: the recorded entries and the names with a validator. */
  class Form {
    var fields: map<string, FieldState>
    var validators: set<string>

    constructor()
      ensures fields == map[] && validators == {}
    {
      fields := map[];
      validators := {};
    }

    /** A field's `valid`: true while nothing is recorded for it. */
    function FieldValid(name: string): bool
      reads this
    {
      if name in fields then fields[name].valid else true
    }

    /** A field's `msg`. */
    function FieldMsg(name: string): Option<string>
      reads this
    {
      if name in fields then fields[name].msg else None
    }

    /** The field's `onblur`. */
    method Blur(name: string, m: Option<string>)
      modifies this
      ensures fields == old(fields)[name := Checked(m)] && validators == old(validators)
    {
      fields := fields[name := Checked(m)];
    }

    /** The field's `oninput`: nothing while the field is valid; otherwise
      * the entry keeps its validity and takes the new message. */
    method Input(name: string, m: Option<string>)
      modifies this
      ensures validators == old(validators)
      ensures old(FieldValid(name)) ==> fields == old(fields)
      ensures !old(FieldValid(name)) ==> fields == old(fields)[name := FieldState(false, m)]
    {
      if FieldValid(name) {
        return;
      }
      fields := fields[name := FieldState(FieldValid(name), m)];
    }

    /** The field's `reset()`. */
    method Reset(name: string)
      modifies this
      ensures fields == old(fields)[name := FieldState(true, None)] && validators == old(validators)
    {
      fields := fields[name := FieldState(true, None)];
    }

    /** The attachment: the field's validator is registered. */
    method Attach(name: string)
      modifies this
      ensures validators == old(validators) + {name} && fields == old(fields)
    {
      validators := validators + {name};
    }

    /** The attachment's cleanup: a node still in the document keeps
      * everything; otherwise the field's entry and validator go. */
    method Detach(name: string, connected: bool)
      modifies this
      ensures connected ==> fields == old(fields) && validators == old(validators)
      ensures !connected ==> fields == old(fields) - {name} && validators == old(validators) - {name}
    {
      if connected {
        return;
      }
      fields := fields - {name};
      validators := validators - {name};
    }

    /** `valid`: every validator runs, recording its field's entry
      * (`check(name)` is its answer), and the form is valid exactly when
      * every recorded entry is. */
    method Valid(check: string -> Option<string>) returns (r: bool)
      modifies this
      ensures validators == old(validators)
      ensures fields.Keys == old(fields).Keys + validators
      ensures forall n :: n in fields ==> fields[n] == if n in validators then Checked(check(n)) else old(fields)[n]
      ensures r <==> forall n :: n in fields ==> fields[n].valid
    {
      var remaining := validators;
      while remaining != {}
        invariant validators == old(validators)
        invariant remaining <= validators
        invariant fields.Keys == old(fields).Keys + (validators - remaining)
        invariant forall n :: n in fields ==>
          fields[n] == if n in validators - remaining then Checked(check(n)) else old(fields)[n]
        decreases remaining
      {
        var name :| name in remaining;
        fields := fields[name := Checked(check(name))];
        remaining := remaining - {name};
      }
      r := AllValid(fields);
    }
  }

  /** `fields.values().every(v => v.valid)`. */
  predicate AllValid(fields: map<string, FieldState>)
  {
    forall n :: n in fields ==> fields[n].valid
  }

  /** After `valid`, a valid form has no field whose validator fails. */
  lemma ValidMeansChecksPass(fields: map<string, FieldState>, validators: set<string>, check: string -> Option<string>, n: string)
    requires forall k :: k in fields ==> k in validators ==> fields[k] == Checked(check(k))
    requires validators <= fields.Keys
    requires AllValid(fields)
    ensures n in validators ==> !Fails(check(n))
  {
    if n in validators {
      assert fields[n].valid;
    }
  }
}
