/** The part of the Keithley 2470's command vocabulary the driver uses, and
    the validating decisions its base class takes before or after talking
    to the instrument: parsing the output-state reply, validating an
    output-state argument, the identity check and the beeper bounds. */
module Scpi {
  import opened Wrappers
  import opened Text

  datatype OutputState = On | Off

  /** What the driver sends to the instrument. Voltages are integers in a
      fixed unit (millivolts, say). `Wait` is not sent: it marks the pause
      the ramp takes between two steps. */
  datatype Command =
    | VoltLevel(volts: int)                // :SOURCE:VOLT:LEV <volts>
    | OutputSwitch(state: OutputState)     // :OUTPUT ON | :OUTPUT OFF
    | Beeper(frequency: real, time: real)  // :SYSTEM:BEEPER <frequency>, <time>
    | MeasureVolt                          // :MEASURE:VOLT? (reply discarded)
    | Wait

  /** The exceptions the driver raises. */
  datatype Error =
    | NotAKeithley2470(idn: string)        // RuntimeError on a foreign identity
    | InvalidOutputArgument(state: string) // ValueError: not "on"/"off"
    | WrongOutputAnswer(reply: string)     // RuntimeError: reply not an integer
    | WrongOutputCode(code: int)           // RuntimeError: an integer other than 0 or 1
    | BeepFrequencyOutOfRange              // ValueError: frequency outside [200, 5000]
    | BeepTimeTooLong                      // ValueError: time above 1 s
    | InvalidPolarity(polarity: string)    // TypeError: not "positive"/"negative"

  /** The integer the instrument uses for an output state. */
  function OutputCode(o: OutputState): int {
    if o == Off then 0 else 1
  }

  /** The instrument's reply to `:OUTPUT:STATE?`. */
  function EncodeOutput(o: OutputState): string {
    if o == Off then "0" else "1"
  }

  /** The `output` property: the reply must read as the integer 0 or 1. A
      reply that is no integer is reported as received; an integer other
      than 0 or 1 is reported as the integer read. */
  function ParseOutputReply(reply: string): (r: Result<OutputState, Error>)
    ensures r.Ok? ==> ParseInt(reply) == Some(OutputCode(r.value))
    ensures ParseInt(reply).None? ==> r == Err(WrongOutputAnswer(reply))
    ensures ParseInt(reply).Some? && ParseInt(reply).value != 0 && ParseInt(reply).value != 1 ==>
      r == Err(WrongOutputCode(ParseInt(reply).value))
  {
    match ParseInt(reply)
    case None => Err(WrongOutputAnswer(reply))
    case Some(n) =>
      if n == 0 then Ok(Off)
      else if n == 1 then Ok(On)
      else Err(WrongOutputCode(n))
  }

  /** An integer reply other than 0 or 1, however it is written, is
      rejected with that integer. */
  lemma ParseOutputReplyRejectsOtherCodes(n: int, pre: string, post: string)
    requires AllSpace(pre) && AllSpace(post) && n != 0 && n != 1
    ensures ParseOutputReply(pre + IntDecimal(n) + post) == Err(WrongOutputCode(n))
  {
    ParseIntRoundTrip(n, pre, post);
  }

  /** Every reply that reads as 0 or 1 is accepted, and as the state with
      that code. */
  lemma ParseOutputReplyComplete(reply: string, o: OutputState)
    requires ParseInt(reply) == Some(OutputCode(o))
    ensures ParseOutputReply(reply) == Ok(o)
  {
  }

  /** The instrument's reply, however padded with whitespace, parses back to
      the state it encodes. */
  lemma ParseOutputReplyRoundTrip(o: OutputState, pre: string, post: string)
    requires AllSpace(pre) && AllSpace(post)
    ensures ParseOutputReply(pre + EncodeOutput(o) + post) == Ok(o)
  {
    var code := EncodeOutput(o);
    StripPadded(pre, code, post);
    assert Strip(pre + code + post) == code;
    assert IsDigits(code);
    assert code[..0] == [];
    assert DigitsValue(code) == OutputCode(o);
  }

  /** Base `set_output` validation: the argument, upper-cased, must be "ON"
      or "OFF". */
  function ParseOutputArg(state: string): (r: Option<OutputState>)
    ensures r == Some(On) <==> Upper(state) == "ON"
    ensures r == Some(Off) <==> Upper(state) == "OFF"
  {
    var u := Upper(state);
    if u == "ON" then Some(On)
    else if u == "OFF" then Some(Off)
    else None
  }

  /** A string whose lower-case form is "off" is a valid "OFF" argument, and
      any other string is either a valid "ON" or invalid. */
  lemma ParseOutputArgOff(state: string)
    ensures Lower(state) == "off" <==> ParseOutputArg(state) == Some(Off)
  {
    UpperOffIffLowerOff(state);
  }

  /** The identity check on the reply to `*IDN?`. */
  function IdentityCheck(idn: string): (r: Outcome<Error>)
    ensures r.Fail? ==> r.error == NotAKeithley2470(idn)
  {
    if Contains(idn, "KEITHLEY") && Contains(idn, "MODEL 2470") then Pass
    else Fail(NotAKeithley2470(idn))
  }

  /** The check passes exactly when both tokens occur in the identity. */
  lemma IdentityCheckIffTokens(idn: string)
    ensures IdentityCheck(idn) == Pass <==>
      (exists i :: OccursAt(idn, "KEITHLEY", i)) && (exists j :: OccursAt(idn, "MODEL 2470", j))
  {
    ContainsIffOccurs(idn, "KEITHLEY");
    ContainsIffOccurs(idn, "MODEL 2470");
  }

  /** A 2470's identity string passes the check. */
  lemma IdentityCheckAccepts2470()
    ensures IdentityCheck("KEITHLEY INSTRUMENTS,MODEL 2470,04481179,1.7.0b") == Pass
  {
    var head, tail := "KEITHLEY INSTRUMENTS,", ",04481179,1.7.0b";
    var good := head + "MODEL 2470" + tail;
    assert good == "KEITHLEY INSTRUMENTS,MODEL 2470,04481179,1.7.0b";
    assert good[21..31] == "MODEL 2470";
    assert OccursAt(good, "MODEL 2470", 21);
    assert good[..8] == "KEITHLEY";
    assert OccursAt(good, "KEITHLEY", 0);
    IdentityCheckIffTokens(good);
  }

  /** The beeper bounds, frequency first: 200 <= frequency <= 5000 and
      time <= 1; there is no lower bound on time. */
  function BeepCheck(frequency: real, time: real): (r: Outcome<Error>)
    ensures r == Pass <==> 200.0 <= frequency <= 5000.0 && time <= 1.0
    ensures r == Fail(BeepFrequencyOutOfRange) <==> !(200.0 <= frequency <= 5000.0)
    ensures r == Fail(BeepTimeTooLong) <==> 200.0 <= frequency <= 5000.0 && time > 1.0
  {
    if !(200.0 <= frequency <= 5000.0) then Fail(BeepFrequencyOutOfRange)
    else if time > 1.0 then Fail(BeepTimeTooLong)
    else Pass
  }
}
