/** `useOTP`: the one-time-code buffer, one string per input box. */
module OtpBuffer {
  import opened Text

  /** `Array(length).fill('')`: the initial buffer and what `reset` restores. */
  function Empty(length: nat): (otp: seq<string>)
    ensures |otp| == length
    ensures forall i :: 0 <= i < length ==> otp[i] == ""
  {
    seq(length, _ => "")
  }

  /** `otp.every(digit => digit !== '')`. */
  predicate IsComplete(otp: seq<string>)
  {
    forall i :: 0 <= i < |otp| ==> otp[i] != ""
  }

  /** `otp.join('')`. */
  function Value(otp: seq<string>): (v: string)
    decreases |otp|
  {
    if otp == [] then "" else otp[0] + Value(otp[1..])
  }

  /** `s.split('')`: one entry per character. */
  function Split(s: string): (otp: seq<string>)
    ensures |otp| == |s|
    ensures forall i :: 0 <= i < |s| ==> otp[i] == [s[i]]
  {
    seq(|s|, i requires 0 <= i < |s| => [s[i]])
  }

  /** Boxes holding one character each join into a string of those characters. */
  lemma {:induction false} ValueOfSingles(otp: seq<string>)
    requires forall i :: 0 <= i < |otp| ==> |otp[i]| == 1
    ensures |Value(otp)| == |otp|
    ensures forall i :: 0 <= i < |otp| ==> Value(otp)[i] == otp[i][0]
    decreases |otp|
  {
    if otp != [] {
      ValueOfSingles(otp[1..]);
    }
  }

  /** Joining what `split('')` produced gives the string back, and the result is complete. */
  lemma SplitRoundTrip(s: string)
    ensures Value(Split(s)) == s
    ensures IsComplete(Split(s))
  {
    ValueOfSingles(Split(s));
  }

  /** Joining empty boxes gives the empty string. */
  lemma {:induction false} ValueOfEmpty(length: nat)
    ensures Value(Empty(length)) == ""
    decreases length
  {
    if length > 0 {
      assert Empty(length)[1..] == Empty(length - 1);
      ValueOfEmpty(length - 1);
    }
  }

  /** After `reset` a buffer of positive length is not complete, and its value is "". */
  lemma ResetIsIncomplete(length: nat)
    requires length > 0
    ensures !IsComplete(Empty(length))
    ensures Value(Empty(length)) == ""
  {
    assert Empty(length)[0] == "";
    ValueOfEmpty(length);
  }

  /** The joined length is the sum of the box lengths, so a complete buffer of n boxes
      joins into at least n characters. */
  lemma {:induction false} CompleteValueLength(otp: seq<string>)
    requires IsComplete(otp)
    ensures |Value(otp)| >= |otp|
    decreases |otp|
  {
    if otp != [] {
      CompleteValueLength(otp[1..]);
    }
  }
}
