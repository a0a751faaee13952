/** The approval mail (Back-end/users/signals.py): before every save the
    previous `is_active` is remembered, and after an update that switched it
    on the user is mailed. */
module Signals {
  import opened Wrappers

  const ApprovedSubject := "حساب شما با موفقیت تأیید شد"

  /** A user row being saved. `oldIsActive` is the `_old_is_active` attribute,
      None while it has not been set. */
  class UserInstance {
    var pk: Option<nat>
    var email: string
    var isActive: bool
    var oldIsActive: Option<bool>

    constructor(email: string, isActive: bool)
      ensures this.email == email && this.isActive == isActive && pk.None? && oldIsActive.None?
    {
      this.email := email;
      this.isActive := isActive;
      pk := None;
      oldIsActive := None;
    }
  }

  /** `save_old_is_active`: a saved row records its stored flag, a new one
      records False. `stored` is the `is_active` column by primary key. */
  method PreSave(inst: UserInstance, stored: map<nat, bool>)
    requires inst.pk.Some? ==> inst.pk.value in stored
    modifies inst
    ensures inst.oldIsActive == Some(if old(inst.pk).Some? then stored[old(inst.pk).value] else false)
    ensures inst.pk == old(inst.pk) && inst.email == old(inst.email) && inst.isActive == old(inst.isActive)
  {
    if inst.pk.Some? {
      inst.oldIsActive := Some(stored[inst.pk.value]);
    } else {
      inst.oldIsActive := Some(false);
    }
  }

  /** `send_approval_email`: the recipient of the approval mail, if any. */
  method PostSave(inst: UserInstance, created: bool) returns (mailTo: Option<string>)
    ensures mailTo.Some? <==> !created && inst.isActive && inst.oldIsActive == Some(false)
    ensures mailTo.Some? ==> mailTo.value == inst.email
  {
    if created {
      return None;
    }
    if inst.isActive && inst.oldIsActive.Some? && !inst.oldIsActive.value {
      return Some(inst.email);
    }
    return None;
  }

  /** One `save()`: the pre-save hook, the write (a new row gets `newPk`),
      then the post-save hook. The mail goes out exactly when an existing row
      goes from inactive to active. */
  method Save(inst: UserInstance, stored: map<nat, bool>, newPk: nat) returns (mailTo: Option<string>, table: map<nat, bool>)
    requires inst.pk.Some? ==> inst.pk.value in stored
    modifies inst
    ensures mailTo.Some? <==> old(inst.pk).Some? && !stored[old(inst.pk).value] && inst.isActive
    ensures mailTo.Some? ==> mailTo.value == inst.email
    ensures inst.pk == Some(if old(inst.pk).Some? then old(inst.pk).value else newPk)
    ensures table == stored[inst.pk.value := inst.isActive]
  {
    PreSave(inst, stored);
    var created := inst.pk.None?;
    if created {
      inst.pk := Some(newPk);
    }
    table := stored[inst.pk.value := inst.isActive];
    mailTo := PostSave(inst, created);
  }
}
