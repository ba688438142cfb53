/**
 * The text helpers of the RDS panel: radiotext padding, the PI code display
 * and the per-character error marking of RDS strings.
 */
module RdsText {
  import opened Wrappers
  import opened KotlinStd

  const RDS_RADIOTEXT_LENGTH: nat := 64

  /**
   * `padToRadiotextLength`: a radiotext line is always shown 64 characters
   * wide, the text's first (at most) 64 characters followed by spaces.
   */
  function PadToRadiotextLength(s: string): (r: string)
    ensures |r| == RDS_RADIOTEXT_LENGTH
    ensures r[..Min(RDS_RADIOTEXT_LENGTH, |s|)] == s[..Min(RDS_RADIOTEXT_LENGTH, |s|)]
    ensures forall i :: Min(RDS_RADIOTEXT_LENGTH, |s|) <= i < RDS_RADIOTEXT_LENGTH ==> r[i] == ' '
  {
    var trimmed := Take(s, RDS_RADIOTEXT_LENGTH);
    if trimmed == [] then Repeat(' ', RDS_RADIOTEXT_LENGTH)
    else PadEnd(trimmed, RDS_RADIOTEXT_LENGTH, ' ')
  }

  /** Padding a line that is already 64 characters wide leaves it as it is. */
  lemma PadToRadiotextLengthIdempotent(s: string)
    ensures PadToRadiotextLength(PadToRadiotextLength(s)) == PadToRadiotextLength(s)
  {
    var r := PadToRadiotextLength(s);
    assert PadToRadiotextLength(r)[..RDS_RADIOTEXT_LENGTH] == r[..RDS_RADIOTEXT_LENGTH];
  }

  /**
   * The PI code shown beside the programme service name: the tuner's PI (or the
   * placeholder when there is no tuner state), blanked to four spaces while any
   * of its digits is still undecoded ('?').
   */
  function PiDisplay(pi: Option<string>, placeholder: string): (r: string)
    ensures var value := pi.GetOr(placeholder);
      ('?' in value ==> r == "    ") && ('?' !in value ==> r == value)
  {
    var value := pi.GetOr(placeholder);
    if '?' in value then "    " else value
  }

  /** The shown PI never contains an undecoded digit. */
  lemma PiDisplayHasNoUnknownDigit(pi: Option<string>, placeholder: string)
    ensures '?' !in PiDisplay(pi, placeholder)
  {
    var r := PiDisplay(pi, placeholder);
    if '?' in pi.GetOr(placeholder) {
      assert r == "    " && r[0] == ' ' && r[1] == ' ' && r[2] == ' ' && r[3] == ' ';
    }
  }

  /** One character of annotated RDS text; `dimmed` marks a character received with errors. */
  datatype StyledChar = StyledChar(c: char, dimmed: bool)

  /** Empty RDS text is shown as a single space so the line keeps its height. */
  function ShownText(text: string): (r: string)
    ensures |r| > 0
    ensures text == [] ==> r == " "
    ensures text != [] ==> r == text
  {
    if text == [] then " " else text
  }

  /** Character `i` carries an error flag: `errors.getOrNull(i)` is present and positive. */
  predicate HasError(errors: seq<int>, i: nat) {
    i < |errors| && errors[i] > 0
  }

  /**
   * `AnnotatedErrorText`'s builder loop: every shown character in order, dimmed
   * exactly when its error count is positive; characters past the end of the
   * error list are shown plainly.
   */
  method AnnotateErrors(text: string, errors: seq<int>) returns (annotated: seq<StyledChar>)
    ensures |annotated| == |ShownText(text)|
    ensures forall i :: 0 <= i < |annotated| ==>
      annotated[i].c == ShownText(text)[i] && (annotated[i].dimmed <==> HasError(errors, i))
  {
    var shown := ShownText(text);
    annotated := [];
    var index := 0;
    while index < |shown|
      invariant 0 <= index <= |shown| && |annotated| == index
      invariant forall i :: 0 <= i < index ==>
        annotated[i].c == shown[i] && (annotated[i].dimmed <==> HasError(errors, i))
    {
      var hasError := index < |errors| && errors[index] > 0;
      annotated := annotated + [StyledChar(shown[index], hasError)];
      index := index + 1;
    }
  }
}
