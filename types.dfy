/** The value types shared by the simulation (types.ts). None of them has behaviour. */
module Types {

  /** One of the three tiers drawn in the diagram (types.ts:1). */
  datatype Entity = Client | Server | Database

  /** The two scripted flows the user can switch between (types.ts:19). */
  datatype Scenario = Login | FetchData

  /** The language tag of a step's code snippet (types.ts:10). */
  datatype CodeLang = JavaScript | Java | Sql | Json

  /** What kind of data travels in a step (types.ts:13). */
  datatype PayloadType = Request | Response | Internal | Query

  /** Who wrote a chat message (types.ts:22). */
  datatype Role = User | Model

  /** One entry of the AI chat transcript (types.ts:21-24). */
  datatype ChatMessage = ChatMessage(role: Role, text: string)

  /**
   * One authored step of a scenario (types.ts:3-17). The free-text fields
   * (title, description, code and payload bodies) are carried along
   * but nothing is proved about their contents.
   */
  datatype Step = Step(
    id: nat,
    title: string,
    description: string,
    source: Entity,
    target: Entity,
    codeLang: CodeLang,
    codeContent: string,
    payloadType: PayloadType,
    payloadContent: string,
    activeComponent: string)

  /** A value that may be absent, standing for the source's `T | null`. */
  datatype Option<+T> = None | Some(value: T)
}
