/**
 * The keyboard manager of the modular revision (src/keyboard/listener.py): it
 * tracks whether the left Option key is down, fires the record-start callback on
 * each press of it and the record-stop callback on each release, and pastes text
 * through the clipboard. The callbacks are reported as `fired` flags; the caller
 * runs the callback when the flag is set.
 */
module Listener {
  import opened Host

  class KeyboardManager {
    var optionPressed: bool

    constructor ()
      ensures !optionPressed
    {
      optionPressed := false;
    }

    /**
     * Types `text` at the cursor by copying it and sending Cmd+V; empty text
     * returns before the clipboard is touched, and failures are swallowed.
     */
    method TypeText(text: string, injector: InjectorOutcome) returns (effects: seq<Effect>)
      ensures text == "" ==> effects == []
      ensures text != "" ==> effects == Paste(text, injector)
      ensures forall e :: e in effects && e.ClipboardSet? ==> e.text == text && text != ""
    {
      if text == "" {
        return [];
      }
      effects := Paste(text, injector);
    }

    /**
     * A press of left Option sets the flag and fires record-start, every time
     * (there is no debounce); any other key changes nothing and fires nothing.
     */
    method OnPress(key: Key) returns (startFired: bool)
      modifies this
      ensures startFired <==> key == AltL
      ensures optionPressed == if key == AltL then true else old(optionPressed)
    {
      startFired := false;
      if key == AltL {
        optionPressed := true;
        startFired := true;
      }
    }

    /**
     * A release of left Option clears the flag and fires record-stop; any other
     * key changes nothing and fires nothing.
     */
    method OnRelease(key: Key) returns (stopFired: bool)
      modifies this
      ensures stopFired <==> key == AltL
      ensures optionPressed == if key == AltL then false else old(optionPressed)
    {
      stopFired := false;
      if key == AltL {
        optionPressed := false;
        stopFired := true;
      }
    }
  }
}
