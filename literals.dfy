/**
  Character-by-character facts about the sample strings of the examples.
  Each lemma takes a literal apart a few characters at a time.
 */
module Literals {
  /** The sample printed with an offset of five hours west. */
  lemma NegativeSampleChars(s: seq<char>)
    requires s == "2015-06-23T12:34:56--5:00"
    ensures |s| == 25
    ensures s[0] == '2' && s[1] == '0' && s[2] == '1' && s[3] == '5' && s[4] == '-' && s[5] == '0' && s[6] == '6'
    ensures s[7] == '-' && s[8] == '2' && s[9] == '3' && s[10] == 'T' && s[11] == '1' && s[12] == '2'
    ensures s[13] == ':' && s[14] == '3' && s[15] == '4' && s[16] == ':' && s[17] == '5' && s[18] == '6'
    ensures s[19] == '-' && s[20] == '-' && s[21] == '5' && s[22] == ':' && s[23] == '0' && s[24] == '0'
  {
    NegativeSampleA(s);
    NegativeSampleB(s);
    NegativeSampleC(s);
    NegativeSampleD(s);
  }

  lemma NegativeSampleA(s: seq<char>)
    requires s == "2015-06-23T12:34:56--5:00"
    ensures |s| == 25 && s[0] == '2' && s[1] == '0' && s[2] == '1' && s[3] == '5' && s[4] == '-' && s[5] == '0' && s[6] == '6'
  {
  }

  lemma NegativeSampleB(s: seq<char>)
    requires s == "2015-06-23T12:34:56--5:00"
    ensures |s| == 25 && s[7] == '-' && s[8] == '2' && s[9] == '3' && s[10] == 'T' && s[11] == '1' && s[12] == '2'
  {
  }

  lemma NegativeSampleC(s: seq<char>)
    requires s == "2015-06-23T12:34:56--5:00"
    ensures |s| == 25 && s[13] == ':' && s[14] == '3' && s[15] == '4' && s[16] == ':' && s[17] == '5' && s[18] == '6'
  {
  }

  lemma NegativeSampleD(s: seq<char>)
    requires s == "2015-06-23T12:34:56--5:00"
    ensures |s| == 25 && s[19] == '-' && s[20] == '-' && s[21] == '5' && s[22] == ':' && s[23] == '0' && s[24] == '0'
  {
  }

  /** A calendar date with the hour 24, in UTC. */
  lemma HourTwentyFourChars(s: seq<char>)
    requires s == "2015-06-23T24:00:00Z"
    ensures |s| == 20
    ensures s[0] == '2' && s[1] == '0' && s[2] == '1' && s[3] == '5' && s[4] == '-' && s[5] == '0' && s[6] == '6' && s[7] == '-' && s[8] == '2' && s[9] == '3'
    ensures s[10] == 'T' && s[11] == '2' && s[12] == '4' && s[13] == ':' && s[14] == '0' && s[15] == '0' && s[16] == ':' && s[17] == '0' && s[18] == '0' && s[19] == 'Z'
  {
    HourTwentyFourA(s);
    HourTwentyFourB(s);
    HourTwentyFourC(s);
  }

  lemma HourTwentyFourA(s: seq<char>)
    requires s == "2015-06-23T24:00:00Z"
    ensures |s| == 20 && s[0] == '2' && s[1] == '0' && s[2] == '1' && s[3] == '5' && s[4] == '-' && s[5] == '0' && s[6] == '6'
  {
  }

  lemma HourTwentyFourB(s: seq<char>)
    requires s == "2015-06-23T24:00:00Z"
    ensures |s| == 20 && s[7] == '-' && s[8] == '2' && s[9] == '3' && s[10] == 'T' && s[11] == '2' && s[12] == '4' && s[13] == ':'
  {
  }

  lemma HourTwentyFourC(s: seq<char>)
    requires s == "2015-06-23T24:00:00Z"
    ensures |s| == 20 && s[14] == '0' && s[15] == '0' && s[16] == ':' && s[17] == '0' && s[18] == '0' && s[19] == 'Z'
  {
  }
}
