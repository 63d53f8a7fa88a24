/** The lock screen: four digits are typed, from the keypad or the
    keyboard, and compared by hash with the stored PIN hash. The hash
    function (SHA-256 as hex) is a parameter. */
module PinLock {
  import opened Types
  import opened Text

  /** `hash(entry) === settings.pinHash`: never true without a stored hash. */
  predicate PinAccepted(entry: string, pinHash: Option<string>, hash: string -> string) {
    pinHash == Some(hash(entry))
  }

  predicate AllDigits(s: string) {
    forall i :: 0 <= i < |s| ==> IsDigit(s[i])
  }

  class PinLockState {
    var pin: string
    var error: string
    var shake: bool
    /** `onUnlock` has been called. */
    var unlocked: bool
    /** The timer that clears a wrong entry is running. */
    var clearPending: bool

    /** What is typed is at most four digits. */
    predicate Valid()
      reads this
    {
      |pin| <= 4 && AllDigits(pin)
    }

    constructor()
      ensures Valid() && pin == "" && error == "" && !shake && !unlocked && !clearPending
    {
      pin := "";
      error := "";
      shake := false;
      unlocked := false;
      clearPending := false;
    }

    /** `handleDigit`: below four digits the digit is appended and the
        error cleared; the fourth digit unlocks when the entry's hash is the
        stored one, and otherwise shakes, says "Incorrect PIN" and starts
        the timer that clears the entry. A full entry ignores further digits. */
    method HandleDigit(digit: char, pinHash: Option<string>, hash: string -> string)
      requires Valid() && IsDigit(digit)
      modifies this
      ensures Valid()
      ensures old(|pin|) >= 4 ==>
        pin == old(pin) && error == old(error) && shake == old(shake) && unlocked == old(unlocked)
        && clearPending == old(clearPending)
      ensures old(|pin|) < 4 ==> pin == old(pin) + [digit]
      ensures old(|pin|) < 4 && |pin| < 4 ==>
        error == "" && shake == old(shake) && unlocked == old(unlocked) && clearPending == old(clearPending)
      ensures old(|pin|) < 4 && |pin| == 4 && PinAccepted(pin, pinHash, hash) ==>
        unlocked && error == "" && shake == old(shake) && clearPending == old(clearPending)
      ensures old(|pin|) < 4 && |pin| == 4 && !PinAccepted(pin, pinHash, hash) ==>
        unlocked == old(unlocked) && shake && error == "Incorrect PIN" && clearPending
      ensures unlocked ==> old(unlocked) || (|pin| == 4 && PinAccepted(pin, pinHash, hash))
    {
      if |pin| < 4 {
        var newPin := pin + [digit];
        pin := newPin;
        error := "";
        if |newPin| == 4 {
          if PinAccepted(newPin, pinHash, hash) {
            unlocked := true;
          } else {
            shake := true;
            error := "Incorrect PIN";
            clearPending := true;
          }
        }
      }
    }

    /** `handleDelete`: the last digit goes (none when empty) and the error clears. */
    method HandleDelete()
      requires Valid()
      modifies this`pin, this`error
      ensures Valid()
      ensures pin == if old(pin) == "" then "" else old(pin)[..|old(pin)| - 1]
      ensures error == ""
    {
      if pin != "" {
        pin := pin[..|pin| - 1];
      }
      error := "";
    }

    /** The timer started by a wrong entry: half a second later the entry
        is cleared and the shaking stops. */
    method ClearTimeout()
      requires Valid()
      modifies this`pin, this`shake, this`clearPending
      ensures Valid() && pin == "" && !shake && !clearPending
    {
      pin := "";
      shake := false;
      clearPending := false;
    }

    /** `handleKeyDown`: a digit key types it, Backspace deletes, any other
        key does nothing. Browsers name no key that both is longer than one
        character and starts with a digit. */
    method HandleKeyDown(key: string, pinHash: Option<string>, hash: string -> string)
      requires Valid()
      requires IsDigitKey(key) ==> |key| == 1
      modifies this
      ensures Valid()
      ensures IsDigitKey(key) && old(|pin|) < 4 ==> pin == old(pin) + key
      ensures key == "Backspace" ==> pin == old(pin)[..if old(pin) == "" then 0 else |old(pin)| - 1] && error == ""
      ensures !IsDigitKey(key) && key != "Backspace" ==>
        pin == old(pin) && error == old(error) && shake == old(shake) && unlocked == old(unlocked)
        && clearPending == old(clearPending)
      ensures unlocked ==> old(unlocked) || (|pin| == 4 && PinAccepted(pin, pinHash, hash))
    {
      if IsDigitKey(key) {
        DigitKeyMeaning(key);
        HandleDigit(key[0], pinHash, hash);
        assert [key[0]] == key;
      } else if key == "Backspace" {
        HandleDelete();
      }
    }
  }
}
