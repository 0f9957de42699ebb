/** The MessageCard document posted to the chat webhook. */
module Teams {

  /** One name/value line of a card section. */
  datatype Fact = Fact(name: string, value: string)

  datatype Section = Section(activityTitle: string, facts: seq<Fact>)

  /** `cardType` and `context` are serialised as `@type` and `@context`. */
  datatype Card = Card(
    cardType: string,
    context: string,
    themeColor: string,
    summary: string,
    sections: seq<Section>)

  const MessageCardType: string := "MessageCard"
  const SchemaContext: string := "http://schema.org/extensions"
  const ThemeColor: string := "0076D7"
}
