/**
 * The message elements whose mirai-code string forms are modelled: poke,
 * xml service and plain text, plus tags for the other elements a message
 * chain may hold.
 */
module Messages {
  import opened Wrappers

  const PokeMsgType: string := "Poke"
  const XmlMsgType: string := "Xml"
  const PlainMsgType: string := "Plain"

  /** The six kinds of poke. */
  datatype PokeType = Poke | ShowLove | Like | Heartbroken | SixSixSix | FangDaZhao

  /** The enum's numeric value: Poke is 1 and each following member one more. */
  function PokeValue(k: PokeType): (n: int)
    ensures 1 <= n <= 6
  {
    match k
    case Poke => 1
    case ShowLove => 2
    case Like => 3
    case Heartbroken => 4
    case SixSixSix => 5
    case FangDaZhao => 6
  }

  /** The inverse of PokeValue on 1..6. */
  function PokeOfValue(n: int): (k: Option<PokeType>)
    ensures k.Some? <==> 1 <= n <= 6
  {
    match n
    case 1 => Some(Poke)
    case 2 => Some(ShowLove)
    case 3 => Some(Like)
    case 4 => Some(Heartbroken)
    case 5 => Some(SixSixSix)
    case 6 => Some(FangDaZhao)
    case _ => None
  }

  lemma PokeValueRoundTrip(k: PokeType)
    ensures PokeOfValue(PokeValue(k)) == Some(k)
  {
  }

  /** The numbering follows declaration order, so the values are distinct. */
  lemma PokeValueInjective(a: PokeType, b: PokeType)
    ensures PokeValue(a) == PokeValue(b) <==> a == b
  {
    PokeValueRoundTrip(a);
    PokeValueRoundTrip(b);
  }

  /** A poke element: its type tag and its kind. */
  datatype PokeMessage = PokeMessage(msgType: string, name: PokeType)

  /** The constructor tags the element "Poke" and keeps the kind. */
  function NewPokeMessage(name: PokeType): (m: PokeMessage)
    ensures m.msgType == PokeMsgType && m.name == name
  {
    PokeMessage(PokeMsgType, name)
  }

  const PokePrefix: string := "[mirai:poke:"
  const PokeSuffix: string := ",-1]"

  /** The decimal digit of a value 1..6. */
  function Digit(n: int): (c: char)
    requires 1 <= n <= 6
    ensures '1' <= c <= '6'
  {
    (('0' as int) + n) as char
  }

  /** The mirai-code of a poke: the kind as a number, and the id fixed at -1. */
  function PokeToString(m: PokeMessage): (s: string)
    ensures |s| == 17
    ensures s[12] as int - '0' as int == PokeValue(m.name)
  {
    PokePrefix + [Digit(PokeValue(m.name))] + PokeSuffix
  }

  /** Exactly "[mirai:poke:" + the numeric kind + ",-1]", 17 characters for every kind 1..6. */
  lemma PokeToStringShape(m: PokeMessage)
    ensures |PokeToString(m)| == 17
    ensures PokeToString(m)[..12] == PokePrefix
    ensures PokeToString(m)[12] as int - '0' as int == PokeValue(m.name)
    ensures PokeToString(m)[13..] == ",-1]"
  {
  }

  /** Reads a poke's kind back from its mirai-code. */
  function ParsePoke(s: string): (k: Option<PokeType>)
  {
    if |s| == 17 && s[..12] == PokePrefix && s[13..] == PokeSuffix
    then PokeOfValue(s[12] as int - '0' as int)
    else None
  }

  /** The kind can be recovered from ToString, whatever the type tag. */
  lemma PokeStringRoundTrip(m: PokeMessage)
    ensures ParsePoke(PokeToString(m)) == Some(m.name)
  {
    PokeToStringShape(m);
    PokeValueRoundTrip(m.name);
  }

  /** Distinct kinds give distinct strings. */
  lemma PokeStringInjective(a: PokeMessage, b: PokeMessage)
    ensures PokeToString(a) == PokeToString(b) <==> a.name == b.name
  {
    PokeStringRoundTrip(a);
    PokeStringRoundTrip(b);
  }

  /** An xml service element. */
  datatype XmlMessage = XmlMessage(msgType: string, xml: string)

  function NewXmlMessage(xml: string): (m: XmlMessage)
    ensures m.msgType == XmlMsgType && m.xml == xml
  {
    XmlMessage(XmlMsgType, xml)
  }

  /** The service prefix: 18 characters, service id 60. */
  const XmlPrefix: string := "[mirai:service:60,"

  function XmlToString(m: XmlMessage): (s: string)
    ensures |s| == |m.xml| + 19
    ensures s[|s| - 1] == ']'
  {
    XmlPrefix + m.xml + "]"
  }

  /** The string keeps service id 60 whatever the xml, and is 19 characters longer than it. */
  lemma XmlToStringShape(m: XmlMessage)
    ensures |XmlPrefix| == 18
    ensures |XmlToString(m)| == |m.xml| + 19
    ensures XmlToString(m)[..18] == XmlPrefix
    ensures XmlToString(m)[15..17] == "60"
    ensures XmlToString(m)[|XmlToString(m)| - 1] == ']'
  {
  }

  /** Removing the 18-character prefix and the final "]" gives back the xml. */
  lemma XmlStringRoundTrip(m: XmlMessage)
    ensures XmlToString(m)[18..|XmlToString(m)| - 1] == m.xml
  {
    var s := XmlToString(m);
    assert s == XmlPrefix + (m.xml + "]");
    assert s[18..] == m.xml + "]";
    assert s[18..|s| - 1] == (m.xml + "]")[..|m.xml|];
  }

  /** A plain-text element; the text may be null. */
  datatype PlainMessage = PlainMessage(msgType: string, message: Option<string>)

  /** The JSON property that carries a plain element's text. */
  const PlainTextKey: string := "text"

  function NewPlainMessage(message: string): (m: PlainMessage)
    ensures m.msgType == PlainMsgType && m.message == Some(message)
  {
    PlainMessage(PlainMsgType, Some(message))
  }

  /** ToString is the stored text itself. */
  function PlainToString(m: PlainMessage): (s: Option<string>)
    ensures s == m.message
  {
    m.message
  }

  /** The JSON properties of a plain element: its tag under "type" and its text under "text". */
  function PlainJsonFields(m: PlainMessage): (fields: map<string, Option<string>>)
    ensures fields.Keys == {"type", PlainTextKey}
  {
    map["type" := Some(m.msgType), PlainTextKey := m.message]
  }

  function PlainFromJsonFields(fields: map<string, Option<string>>): (m: Option<PlainMessage>)
  {
    if "type" in fields && fields["type"].Some? && PlainTextKey in fields
    then Some(PlainMessage(fields["type"].value, fields[PlainTextKey]))
    else None
  }

  lemma PlainJsonRoundTrip(m: PlainMessage)
    ensures PlainFromJsonFields(PlainJsonFields(m)) == Some(m)
  {
  }

  /** An element of a message chain, as far as the send checks tell them apart. */
  datatype MessageElement =
    | PlainElement(plain: PlainMessage)
    | PokeElement(poke: PokeMessage)
    | XmlElement(xmlMessage: XmlMessage)
    | SourceElement
    | QuoteElement
    | OtherElement(msgType: string)
}
