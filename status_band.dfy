/**
 * getBgColor: the ANSI background colour of the console line, chosen by the
 * class of the response's status code (section 15 of RFC 9110).
 */
module StatusBand {

  const Green: string := "\U{1B}[42m"
  const Blue: string := "\U{1B}[44m"
  const Yellow: string := "\U{1B}[43m"
  const Red: string := "\U{1B}[41m"

  /** The severity bands of the console sink; codes below 200 have none. */
  datatype Band = Success | Redirection | ClientError | ServerError | Unbanded

  /**
   * Reference definition by the first digit of the code (RFC 9110 section 15):
   * 2xx success, 3xx redirection, 4xx client error, and 5xx together with
   * every larger code server error.
   */
  function BandOf(status: int): Band
  {
    if status < 200 then Unbanded
    else
      var digit := status / 100;
      if digit == 2 then Success
      else if digit == 3 then Redirection
      else if digit == 4 then ClientError
      else ServerError
  }

  function Colour(b: Band): string
  {
    match b
    case Success => Green
    case Redirection => Blue
    case ClientError => Yellow
    case ServerError => Red
    case Unbanded => ""
  }

  /** getBgColor, written as the source's switch on comparisons. */
  function GetBgColor(status: int): (c: string)
    ensures c == Colour(BandOf(status))
  {
    if status >= 200 && status < 300 then Green
    else if status >= 300 && status < 400 then Blue
    else if status >= 400 && status < 500 then Yellow
    else if status >= 500 then Red
    else ""
  }

  /** Different bands are shown in different colours. */
  lemma ColourDistinguishesBands(a: Band, b: Band)
    ensures Colour(a) == Colour(b) <==> a == b
  {
  }

  /** Each colour is chosen for exactly its range of codes, and the ranges cover every int. */
  lemma BgColorRanges(status: int)
    ensures GetBgColor(status) == Green <==> 200 <= status < 300
    ensures GetBgColor(status) == Blue <==> 300 <= status < 400
    ensures GetBgColor(status) == Yellow <==> 400 <= status < 500
    ensures GetBgColor(status) == Red <==> 500 <= status
    ensures GetBgColor(status) == "" <==> status < 200
  {
    ColourDistinguishesBands(BandOf(status), Success);
  }
}
