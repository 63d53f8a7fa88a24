/** The PIN dialog: with the lock off it sets a PIN in two steps (enter,
    confirm); with the lock on it asks for the current PIN to switch the
    lock off. The hash function is a parameter. */
module PinSetup {
  import opened Types
  import opened Text
  import opened SeqUtil
  import opened Collection
  import opened Patches
  import opened Store
  import PinLock

  /** `value.replace(/\D/g, '').slice(0, 4)`: the first four digits typed. */
  function Sanitize(text: string): (r: string)
    ensures |r| <= 4 && PinLock.AllDigits(r)
  {
    Take(Filter(text, IsDigit), 4)
  }

  /** Sanitizing keeps four digits at most and changes nothing it already
      produced; a digits-only entry of at most four is kept as typed. */
  lemma SanitizeLaws(text: string)
    ensures Sanitize(Sanitize(text)) == Sanitize(text)
    ensures |text| <= 4 && PinLock.AllDigits(text) ==> Sanitize(text) == text
    ensures forall i :: 0 <= i < |Sanitize(text)| ==> Sanitize(text)[i] in text
  {
    var r := Sanitize(text);
    FilterAll(r, IsDigit);
    if PinLock.AllDigits(text) {
      FilterAll(text, IsDigit);
    }
    forall i | 0 <= i < |r|
      ensures r[i] in text
    {
      FilterMembership(text, IsDigit, r[i]);
    }
  }

  datatype Step = EnterStep | ConfirmStep

  /** The patch that switches the lock on with a new PIN. */
  function EnablePatch(pin: string, hash: string -> string): SettingsPatch {
    NoSettingsChange.(pinEnabled := SetTo(true), pinHash := SetTo(Some(hash(pin))))
  }

  /** The patch that switches the lock off and forgets the hash. */
  const DisablePatch: SettingsPatch := NoSettingsChange.(pinEnabled := SetTo(false), pinHash := SetTo(None))

  class PinSetupState {
    var step: Step
    var pin: string
    var confirmPin: string
    var error: string
    var open: bool

    /** Both fields hold at most four digits, and the confirm step is only
        reached with a PIN of exactly four. */
    predicate Valid()
      reads this
    {
      |pin| <= 4 && PinLock.AllDigits(pin) && |confirmPin| <= 4 && PinLock.AllDigits(confirmPin)
      && (step == ConfirmStep ==> |pin| == 4)
    }

    /** The dialog after a successful submit: closed and reset. */
    predicate Closed()
      reads this
    {
      !open && step == EnterStep && pin == "" && confirmPin == "" && error == ""
    }

    /** A rejected submit keeps the step, both entries and the dialog open state. */
    predicate KeptEntries(step0: Step, pin0: string, confirm0: string, open0: bool)
      reads this
    {
      step == step0 && pin == pin0 && confirmPin == confirm0 && open == open0
    }

    constructor()
      ensures Valid() && step == EnterStep && pin == "" && confirmPin == "" && error == "" && !open
    {
      step := EnterStep;
      pin := "";
      confirmPin := "";
      error := "";
      open := false;
    }

    /** `resetForm`. */
    method ResetForm()
      modifies this`step, this`pin, this`confirmPin, this`error
      ensures Valid() && step == EnterStep && pin == "" && confirmPin == "" && error == ""
    {
      step := EnterStep;
      pin := "";
      confirmPin := "";
      error := "";
    }

    /** `handleClose`. */
    method HandleClose()
      modifies this
      ensures Valid() && !open && step == EnterStep && pin == "" && confirmPin == "" && error == ""
    {
      open := false;
      ResetForm();
    }

    /** Typing: the sanitized text goes into the field of the current step
        and the error clears. */
    method OnChange(text: string)
      requires Valid()
      modifies this`pin, this`confirmPin, this`error
      ensures Valid()
      ensures step == ConfirmStep ==> confirmPin == Sanitize(text) && pin == old(pin)
      ensures step == EnterStep ==> pin == Sanitize(text) && confirmPin == old(confirmPin)
      ensures error == ""
    {
      var val := Sanitize(text);
      if step == ConfirmStep {
        confirmPin := val;
      } else {
        pin := val;
      }
      error := "";
    }

    /** `handleSubmit`. With the lock on, the PIN typed switches it off when
        its hash is the stored one. With the lock off, the enter step
        checks for four digits and moves to the confirm step, and the
        confirm step, when both entries agree, stores the PIN's hash and
        switches the lock on. Success closes and resets the dialog. */
    method HandleSubmit(store: AppStore, hash: string -> string)
      requires Valid()
      modifies this, store`settings
      ensures Valid()
      ensures old(store.settings.pinEnabled) ==>
        if old(store.settings.pinHash) == Some(hash(old(pin))) then
          store.settings == MergeSettings(old(store.settings), DisablePatch) && Closed()
        else
          store.settings == old(store.settings) && error == "Incorrect PIN" && KeptEntries(old(step), old(pin), old(confirmPin), old(open))
      ensures !old(store.settings.pinEnabled) && old(step) == EnterStep ==>
        store.settings == old(store.settings) &&
        if |old(pin)| == 4 then
          step == ConfirmStep && error == "" && pin == old(pin) && confirmPin == old(confirmPin) && open == old(open)
        else
          error == "PIN must be exactly 4 digits" && KeptEntries(old(step), old(pin), old(confirmPin), old(open))
      ensures !old(store.settings.pinEnabled) && old(step) == ConfirmStep ==>
        if old(pin) == old(confirmPin) then
          store.settings == MergeSettings(old(store.settings), EnablePatch(old(pin), hash)) && Closed()
        else
          store.settings == old(store.settings) && error == "PINs do not match" && KeptEntries(old(step), old(pin), old(confirmPin), old(open))
    {
      error := "";
      if store.settings.pinEnabled {
        if store.settings.pinHash == Some(hash(pin)) {
          store.UpdateSettings(DisablePatch);
          open := false;
          ResetForm();
        } else {
          error := "Incorrect PIN";
        }
      } else if step == EnterStep {
        if |pin| != 4 || !PinLock.AllDigits(pin) {
          error := "PIN must be exactly 4 digits";
          return;
        }
        step := ConfirmStep;
      } else {
        if pin != confirmPin {
          error := "PINs do not match";
          return;
        }
        store.UpdateSettings(EnablePatch(pin, hash));
        open := false;
        ResetForm();
      }
    }
  }

  /** Setting a PIN switches the lock on with that PIN's hash and nothing
      else; the lock screen then accepts exactly the PINs of the same hash,
      among them the one set, which has four digits and so can be typed in
      full. Switching the lock off forgets the hash, after which no entry is
      accepted. */
  lemma SetupThenUnlock(s: AppSettings, pin: string, entry: string, hash: string -> string)
    requires |pin| == 4 && PinLock.AllDigits(pin)
    ensures var t := MergeSettings(s, EnablePatch(pin, hash));
      t == s.(pinEnabled := true, pinHash := Some(hash(pin))) &&
      PinLock.PinAccepted(pin, t.pinHash, hash) &&
      (PinLock.PinAccepted(entry, t.pinHash, hash) <==> hash(entry) == hash(pin))
    ensures var t := MergeSettings(s, DisablePatch);
      t == s.(pinEnabled := false, pinHash := None) && !PinLock.PinAccepted(entry, t.pinHash, hash)
  {
  }
}
