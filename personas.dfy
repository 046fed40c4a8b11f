/** The fixed persona registry the chat panel selects from. The two system
    instruction texts are long fixed prompts; the model treats them as
    opaque strings supplied by the registry value. */
module Personas {

  datatype AgentId = Chiron | Bridge

  datatype Persona = Persona(name: string, logo: string, prompt: string)

  /** The registry's two instruction texts. */
  datatype Registry = Registry(chironPrompt: string, bridgePrompt: string)

  /** `AGENT_PERSONAS[id]`: each agent has its own display name and glyph
      and the registry's instruction text for that agent. */
  function Lookup(reg: Registry, id: AgentId): (p: Persona)
    ensures p.name == "CHIRON" <==> id == Chiron
    ensures p.name == "BRIDGE" <==> id == Bridge
    ensures id == Chiron ==> p.prompt == reg.chironPrompt
    ensures id == Bridge ==> p.prompt == reg.bridgePrompt
  {
    match id
    case Chiron => Persona("CHIRON", "\U{2624}", reg.chironPrompt)
    case Bridge => Persona("BRIDGE", "\U{1F3E2}", reg.bridgePrompt)
  }

  /** Distinct agents are told apart by their display names. */
  lemma LookupNamesDistinct(reg: Registry, a: AgentId, b: AgentId)
    requires a != b
    ensures Lookup(reg, a).name != Lookup(reg, b).name
  {
  }
}
