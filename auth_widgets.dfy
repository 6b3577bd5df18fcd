/** The logic inside the shared `Auth` components: password strength, requirements and
    match, the OTP boxes' typing and paste rules, the countdown display and the resend
    button. */
module AuthWidgets {
  import opened Text
  import OtpBuffer
  import CountdownHook

  // ---------------------------------------------------------------- password checks

  /** `/[a-z]/.test(p)`. */
  predicate HasLower(p: string) { exists i :: 0 <= i < |p| && IsAsciiLower(p[i]) }
  /** `/[A-Z]/.test(p)`. */
  predicate HasUpper(p: string) { exists i :: 0 <= i < |p| && IsAsciiUpper(p[i]) }
  /** `/\d/.test(p)`. */
  predicate HasDigit(p: string) { exists i :: 0 <= i < |p| && IsDigit(p[i]) }
  /** `/[^a-zA-Z0-9]/.test(p)`. */
  predicate HasSpecial(p: string) { exists i :: 0 <= i < |p| && !IsAlnum(p[i]) }

  /** The five strength criteria, in the order the score counts them. */
  function Criteria(p: string): (c: seq<bool>)
    ensures |c| == 5
  {
    [|p| >= 8, |p| >= 12, HasLower(p) && HasUpper(p), HasDigit(p), HasSpecial(p)]
  }

  function CountTrue(bs: seq<bool>): (n: nat)
    ensures n <= |bs|
  {
    if bs == [] then 0 else (if bs[0] then 1 else 0) + CountTrue(bs[1..])
  }

  function Point(b: bool): nat { if b then 1 else 0 }

  lemma CountTrueCons(b: bool, bs: seq<bool>)
    ensures CountTrue([b] + bs) == Point(b) + CountTrue(bs)
  {
    assert ([b] + bs)[1..] == bs;
  }

  /** Counting a four-element list is adding its four points. */
  lemma {:induction false} CountFour(a: bool, b: bool, c: bool, d: bool)
    ensures CountTrue([a, b, c, d]) == Point(a) + Point(b) + Point(c) + Point(d)
  {
    CountTrueCons(d, []);
    CountTrueCons(c, [d]);
    CountTrueCons(b, [c, d]);
    CountTrueCons(a, [b, c, d]);
    assert [a] + [b, c, d] == [a, b, c, d];
    assert [b] + [c, d] == [b, c, d];
    assert [c] + [d] == [c, d];
    assert [d] + [] == [d];
  }

  /** Counting a five-element list is adding its five points. */
  lemma {:induction false} CountFive(a: bool, b: bool, c: bool, d: bool, e: bool)
    ensures CountTrue([a, b, c, d, e]) == Point(a) + Point(b) + Point(c) + Point(d) + Point(e)
  {
    CountFour(b, c, d, e);
    CountTrueCons(a, [b, c, d, e]);
    assert [a] + [b, c, d, e] == [a, b, c, d, e];
  }

  /** The effect of `PasswordStrength`: one point per satisfied criterion. */
  method StrengthScore(password: string) returns (score: nat)
    ensures score == CountTrue(Criteria(password))
    ensures score <= 5
  {
    score := 0;
    if |password| >= 8 { score := score + 1; }
    if |password| >= 12 { score := score + 1; }
    if HasLower(password) && HasUpper(password) { score := score + 1; }
    if HasDigit(password) { score := score + 1; }
    if HasSpecial(password) { score := score + 1; }
    CountFive(|password| >= 8, |password| >= 12, HasLower(password) && HasUpper(password),
              HasDigit(password), HasSpecial(password));
  }

  datatype Strength = Weak | Medium | Strong

  /** `getText` (and, through the same thresholds, `getColor`). */
  function StrengthLabel(score: nat): (s: Strength)
    ensures s == Weak <==> score < 2
    ensures s == Medium <==> 2 <= score < 4
    ensures s == Strong <==> score >= 4
  {
    if score < 2 then Weak else if score < 4 then Medium else Strong
  }

  /** `getColor`: bar and text classes for the caption's band. */
  function StrengthColors(score: nat): (c: (string, string))
    ensures StrengthLabel(score) == Weak ==> c == ("bg-red-500", "text-red-600")
    ensures StrengthLabel(score) == Medium ==> c == ("bg-yellow-500", "text-yellow-600")
    ensures StrengthLabel(score) == Strong ==> c == ("bg-green-500", "text-green-600")
  {
    if score < 2 then ("bg-red-500", "text-red-600")
    else if score < 4 then ("bg-yellow-500", "text-yellow-600")
    else ("bg-green-500", "text-green-600")
  }

  /** What `PasswordStrength` renders: nothing for an empty password, otherwise the caption. */
  function StrengthView(password: string, score: nat): (v: Option<Strength>)
    ensures v.None? <==> password == ""
    ensures v.Some? ==> v.value == StrengthLabel(score)
  {
    if password == "" then None else Some(StrengthLabel(score))
  }

  datatype Requirement = Requirement(text: string, met: bool)

  /** `PasswordRequirements`: four rows, each with its own predicate. */
  function Requirements(p: string): (rs: seq<Requirement>)
    ensures |rs| == 4
    ensures rs[0].met <==> |p| >= 8
    ensures rs[1].met <==> HasLower(p) && HasUpper(p)
    ensures rs[2].met <==> HasDigit(p)
    ensures rs[3].met <==> HasSpecial(p)
  {
    [Requirement("At least 8 characters long", |p| >= 8),
     Requirement("Contains uppercase and lowercase letters", HasLower(p) && HasUpper(p)),
     Requirement("Contains at least one number", HasDigit(p)),
     Requirement("Contains at least one special character", HasSpecial(p))]
  }

  /** A password meeting all four listed requirements scores at least 4: the strength
      meter calls it Strong. */
  lemma RequirementsMetMeansStrong(p: string)
    requires forall i :: 0 <= i < 4 ==> Requirements(p)[i].met
    ensures CountTrue(Criteria(p)) >= 4
    ensures StrengthLabel(CountTrue(Criteria(p))) == Strong
  {
    var rs := Requirements(p);
    assert rs[0].met && rs[1].met && rs[2].met && rs[3].met;
    CountFive(|p| >= 8, |p| >= 12, HasLower(p) && HasUpper(p), HasDigit(p), HasSpecial(p));
  }

  /** The `met` flags of the requirement rows, in order. */
  function MetFlags(rs: seq<Requirement>): (m: seq<bool>)
    ensures |m| == |rs| && forall i :: 0 <= i < |rs| ==> m[i] == rs[i].met
  {
    seq(|rs|, i requires 0 <= i < |rs| => rs[i].met)
  }

  /** The score is the number of met requirements, plus one for twelve characters or more. */
  lemma ScoreCountsRequirements(p: string)
    ensures CountTrue(Criteria(p)) == CountTrue(MetFlags(Requirements(p))) + Point(|p| >= 12)
  {
    var rs := Requirements(p);
    var long, mixed, digit, special := |p| >= 8, HasLower(p) && HasUpper(p), HasDigit(p), HasSpecial(p);
    assert MetFlags(rs) == [long, mixed, digit, special];
    assert Criteria(p) == [long, |p| >= 12, mixed, digit, special];
    CountFour(long, mixed, digit, special);
    CountFive(long, |p| >= 12, mixed, digit, special);
  }

  /** `PasswordMatch`: nothing for an empty confirmation, otherwise whether they match. */
  function PasswordMatch(password: string, confirmPassword: string): (m: Option<bool>)
    ensures m.None? <==> confirmPassword == ""
    ensures m.Some? ==> (m.value <==> password == confirmPassword)
  {
    if confirmPassword == "" then None else Some(password == confirmPassword)
  }

  // ---------------------------------------------------------------- OTP boxes

  /** What a keystroke or a paste does to the boxes: nothing, or a new buffer handed to
      `onChange`, the box to focus next, and the joined code handed to `onComplete`. */
  datatype OtpEdit =
    | Ignored
    | Changed(newValue: seq<string>, focus: Option<nat>, completed: Option<string>)

  /** `OTPInput.handleChange(index, val)`. */
  function TypeDigit(value: seq<string>, index: nat, val: string): (e: OtpEdit)
    requires index < |value|
    // an input longer than one character is cut to its first character
    ensures var v := if |val| > 1 then val[..1] else val;
            (e.Ignored? <==> !AllDigits(v))
            && (e.Changed? ==>
                  |e.newValue| == |value| && e.newValue[index] == v
                  && (forall j :: 0 <= j < |value| && j != index ==> e.newValue[j] == value[j])
                  && (e.focus.Some? <==> v != "" && index < 5)
                  && (e.focus.Some? ==> e.focus.value == index + 1))
    // `onComplete` fires with the joined code exactly when every box is filled
    ensures e.Changed? ==>
              (e.completed.Some? <==> OtpBuffer.IsComplete(e.newValue))
              && (e.completed.Some? ==> e.completed.value == OtpBuffer.Value(e.newValue))
  {
    var v := if |val| > 1 then val[..1] else val;
    if !AllDigits(v) then Ignored
    else
      var newValue := value[index := v];
      Changed(newValue,
              if v != "" && index < 5 then Some(index + 1) else None,
              if OtpBuffer.IsComplete(newValue) then Some(OtpBuffer.Value(newValue)) else None)
  }

  /** `OTPInput.handlePaste`: six ASCII digits after trimming fill the boxes and complete
      the code; anything else is ignored. */
  function Paste(text: string): (e: OtpEdit)
    ensures e.Changed? <==> |Trim(text)| == 6 && AllDigits(Trim(text))
    ensures e.Changed? ==>
              |e.newValue| == 6
              && OtpBuffer.IsComplete(e.newValue)
              && OtpBuffer.Value(e.newValue) == Trim(text)
              && e.completed == Some(Trim(text))
              && e.focus == Some(5)
  {
    var pasted := Trim(text);
    if |pasted| == 6 && AllDigits(pasted) then
      OtpBuffer.SplitRoundTrip(pasted);
      Changed(OtpBuffer.Split(pasted), Some(5), Some(pasted))
    else Ignored
  }

  /** Typing a digit into the last empty box of an otherwise full buffer completes it. */
  lemma LastDigitCompletes(value: seq<string>, index: nat, d: char)
    requires index < |value| && IsDigit(d)
    requires forall j :: 0 <= j < |value| && j != index ==> value[j] != ""
    ensures TypeDigit(value, index, [d]).Changed?
    ensures TypeDigit(value, index, [d]).completed.Some?
  {
  }

  /** Clearing a box (the empty string passes `^\d*$`) always leaves the code incomplete. */
  lemma ClearingABoxNeverCompletes(value: seq<string>, index: nat)
    requires index < |value|
    ensures TypeDigit(value, index, "").Changed?
    ensures TypeDigit(value, index, "").completed.None?
    ensures TypeDigit(value, index, "").focus.None?
  {
    assert TypeDigit(value, index, "").newValue[index] == "";
  }

  // ---------------------------------------------------------------- countdown and resend

  datatype TimerView = Expired | Running(text: string, warning: bool)

  /** `CountdownTimer`: the expired banner at zero, otherwise m:ss, in warning colours
      below the threshold. */
  function CountdownView(seconds: nat, warningThreshold: nat): (v: TimerView)
    ensures v.Expired? <==> seconds == 0
    ensures v.Running? ==> v.text == CountdownHook.FormatTime(seconds)
    ensures v.Running? ==> (v.warning <==> seconds < warningThreshold)
  {
    if seconds == 0 then Expired
    else Running(CountdownHook.FormatTime(seconds), seconds < warningThreshold)
  }

  datatype ResendView = ResendView(disabled: bool, caption: string)

  /** `ResendButton`: disabled while the cooldown runs, when the caption also shows the
      seconds left. */
  function ResendButton(countdown: nat, text: string): (v: ResendView)
    ensures v.disabled <==> countdown > 0
    ensures !v.disabled ==> v.caption == text
    ensures v.disabled ==> v.caption == text + " in " + NatToString(countdown) + "s"
  {
    if countdown > 0 then ResendView(true, text + " in " + NatToString(countdown) + "s")
    else ResendView(false, text)
  }

  /** The caption alone tells whether the button is enabled: it is the bare text exactly
      when the cooldown is over. */
  lemma ResendLabelShowsState(countdown: nat, text: string)
    ensures ResendButton(countdown, text).caption == text <==> countdown == 0
  {
  }
}
