/** The two-step login screen: an e-mail address first, then a six-digit
    one-time code typed into six single-character boxes. */
module Login {
  import opened Text

  datatype Step = EmailStep | OtpStep

  const OTP_LENGTH: nat := 6

  /** What a code box may hold: nothing, or one decimal digit. */
  predicate ValidSlot(slot: string)
  {
    slot == "" || (|slot| == 1 && IsDigit(slot[0]))
  }

  /** No code box is left empty. */
  predicate AllFilled(otp: seq<string>)
  {
    forall i :: 0 <= i < |otp| ==> otp[i] != ""
  }

  /** Input longer than one character is cut to its first character. */
  function Truncate(value: string): (r: string)
    ensures |r| == if |value| == 0 then 0 else 1
    ensures r == value[..|r|]
  {
    if |value| > 1 then [value[0]] else value
  }

  /** The boxes read left to right, as the code the user typed. */
  function Code(otp: seq<string>): string
  {
    if otp == [] then "" else otp[0] + Code(otp[1..])
  }

  /** Once every box holds a digit, the boxes spell a code of exactly one
      digit per box. */
  lemma {:induction false} FilledCodeIsDigits(otp: seq<string>)
    requires forall i :: 0 <= i < |otp| ==> ValidSlot(otp[i])
    requires AllFilled(otp)
    ensures |Code(otp)| == |otp| && AllDigits(Code(otp))
  {
    if otp != [] {
      FilledCodeIsDigits(otp[1..]);
      assert otp[0] != "" && ValidSlot(otp[0]);
    }
  }

  /** A truncated input passes the `^\d*$` test exactly when it is a
      valid box content. */
  lemma TruncatedInputAccepted(value: string)
    ensures AllDigits(Truncate(value)) <==> ValidSlot(Truncate(value))
  {
  }

  /** The login screen's state. */
  class LoginPage {
    var step: Step
    var email: string
    var otp: seq<string>
    var isLoading: bool

    /** Six boxes, each empty or one digit. */
    ghost predicate Valid()
      reads this
    {
      |otp| == OTP_LENGTH && forall i :: 0 <= i < |otp| ==> ValidSlot(otp[i])
    }

    constructor ()
      ensures Valid()
      ensures step == EmailStep && email == "" && !isLoading
      ensures otp == ["", "", "", "", "", ""]
    {
      step := EmailStep;
      email := "";
      otp := ["", "", "", "", "", ""];
      isLoading := false;
    }

    /** The e-mail field's onChange. */
    method EmailChange(value: string)
      modifies this
      ensures email == value
      ensures step == old(step) && otp == old(otp) && isLoading == old(isLoading)
    {
      email := value;
    }

    /** `handleEmailSubmit`: an empty address stays on the first step; any
        other moves to the code step once the (simulated) request is done. */
    method EmailSubmit()
      modifies this
      ensures old(email) == "" ==> unchanged(this)
      ensures old(email) != "" ==>
        step == OtpStep && !isLoading && email == old(email) && otp == old(otp)
    {
      if email == "" {
        return;
      }
      isLoading := false;
      step := OtpStep;
    }

    /** `handleOtpChange`: the input is cut to one character; unless that is
        empty or a digit it is ignored, otherwise it replaces box `index`. */
    method OtpChange(index: nat, value: string)
      requires Valid() && index < OTP_LENGTH
      modifies this
      ensures Valid()
      ensures otp == if AllDigits(Truncate(value)) then old(otp)[index := Truncate(value)] else old(otp)
      ensures step == old(step) && email == old(email) && isLoading == old(isLoading)
    {
      var v := value;
      if |v| > 1 {
        v := [v[0]];
      }
      if !AllDigits(v) {
        return;
      }
      otp := otp[index := v];
    }

    /** The submit button of the code step is disabled while a request is
        running or while a box is empty. */
    predicate LoginDisabled()
      reads this
    {
      isLoading || !AllFilled(otp)
    }

    /** `handleLogin`: with an empty box nothing happens; otherwise the
        request starts. */
    method Login()
      modifies this
      ensures !AllFilled(old(otp)) ==> unchanged(this)
      ensures AllFilled(old(otp)) ==> isLoading
      ensures step == old(step) && email == old(email) && otp == old(otp)
    {
      if !AllFilled(otp) {
        return;
      }
      isLoading := true;
    }

    /** The back link: return to the e-mail step, keeping the typed code. */
    method Back()
      modifies this
      ensures step == EmailStep
      ensures email == old(email) && otp == old(otp) && isLoading == old(isLoading)
    {
      step := EmailStep;
    }
  }

  /** When the login button is enabled the six boxes hold a complete
      six-digit code. */
  lemma EnabledLoginHasFullCode(page: LoginPage)
    requires page.Valid() && !page.LoginDisabled()
    ensures |Code(page.otp)| == OTP_LENGTH && AllDigits(Code(page.otp))
  {
    FilledCodeIsDigits(page.otp);
  }
}
