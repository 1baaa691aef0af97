/**
 * The values the OSC writer publishes and the (address, value) messages that
 * carry them.
 */
module OscValues {

  /**
   * A colour, as an opaque token. The RGB triples behind the tokens (and the
   * palette lookup that produces them) are not modelled; only equality is.
   * Off, Red and Green are the palette's "off" colour and its red and green
   * entries; Named(n) is the palette entry for the scale colour named n;
   * Host(id) is a colour the host reports for a track, slot or layer.
   */
  datatype Color = Off | Red | Green | Named(name: string) | Host(id: int)

  /**
   * One published value. Host numbers that are not integers (the tempo) are
   * carried as Opaque tokens; NullV is Java's null (an untyped track).
   */
  datatype Value =
    | BoolV(b: bool)
    | IntV(i: int)
    | StrV(s: string)
    | ColorV(c: Color)
    | Opaque(token: int)
    | NullV

  /** One outbound OSC message: an address string and its single argument. */
  datatype Message = Message(address: string, value: Value)
}
