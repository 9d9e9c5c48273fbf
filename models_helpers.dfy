/** Helpers for building requests to the models service: the one-line way to
    turn a text into contents, and the defaults filled into a generation
    config before it is sent. */
module ModelsHelpers {
  import opened Common

  /** The role of content written by the user. */
  const RoleUser := "user"

  /** A part of a content; only its text matters to these helpers. */
  datatype Part = Part(text: string)

  /** Go's `Content`, a pointer the helpers fill in place. */
  class Content {
    var role: string
    var parts: seq<Part>

    constructor (role: string, parts: seq<Part>)
      ensures this.role == role && this.parts == parts
    {
      this.role := role;
      this.parts := parts;
    }
  }

  /** Go's `GenerateContentConfig`: the candidate count and the system
      instruction, which the defaults touch, and every other setting as the
      JSON members it encodes to. */
  class GenerateContentConfig {
    var candidateCount: int
    var systemInstruction: Content?
    var others: map<string, Json>

    constructor (candidateCount: int, systemInstruction: Content?, others: map<string, Json>)
      ensures this.candidateCount == candidateCount && this.systemInstruction == systemInstruction
      ensures this.others == others
    {
      this.candidateCount := candidateCount;
      this.systemInstruction := systemInstruction;
      this.others := others;
    }
  }

  /** The role a content has after its defaults are set: an unset role
      becomes the user's, a set one stays. */
  function DefaultRole(role: string): (r: string)
    ensures r != ""
    ensures role == "" ==> r == RoleUser
    ensures role != "" ==> r == role
  {
    if role == "" then RoleUser else role
  }

  /** The candidate count after the defaults are set: an unset (zero) count
      asks for one candidate, any other count stays. */
  function DefaultCandidateCount(n: int): (r: int)
    ensures r != 0
    ensures n == 0 ==> r == 1
    ensures n != 0 ==> r == n
  {
    if n == 0 then 1 else n
  }

  /** Setting the defaults twice is setting them once. */
  lemma DefaultsIdempotent(role: string, n: int)
    ensures DefaultRole(DefaultRole(role)) == DefaultRole(role)
    ensures DefaultCandidateCount(DefaultCandidateCount(n)) == DefaultCandidateCount(n)
  {
  }

  /** Go's `Text`: exactly one new content, from the user, with a single
      part holding the text. */
  method Text(text: string) returns (contents: seq<Content>)
    ensures |contents| == 1 && fresh(contents[0])
    ensures contents[0].role == RoleUser && contents[0].parts == [Part(text)]
  {
    var c := new Content(RoleUser, [Part(text)]);
    contents := [c];
  }

  /** `Content.setDefaults`: a nil content is left alone; otherwise the role
      gets its default and the parts are untouched. */
  method ContentSetDefaults(c: Content?)
    modifies c
    ensures c != null ==> c.role == DefaultRole(old(c.role)) && c.parts == old(c.parts)
  {
    if c == null {
      return;
    }
    if c.role == "" {
      c.role := RoleUser;
    }
  }

  /** `GenerateContentConfig.setDefaults`: a nil config is left alone;
      otherwise the candidate count gets its default, and a system
      instruction, when there is one, gets its role's default. The
      instruction stays the same object and no other setting changes. */
  method ConfigSetDefaults(c: GenerateContentConfig?)
    modifies c, if c == null then {} else {c.systemInstruction}
    ensures c != null ==>
              c.candidateCount == DefaultCandidateCount(old(c.candidateCount))
              && c.systemInstruction == old(c.systemInstruction)
              && c.others == old(c.others)
    ensures c != null && c.systemInstruction != null ==>
              c.systemInstruction.role == DefaultRole(old(c.systemInstruction.role))
              && c.systemInstruction.parts == old(c.systemInstruction.parts)
  {
    if c == null {
      return;
    }
    if c.candidateCount == 0 {
      c.candidateCount := 1;
    }
    if c.systemInstruction != null && c.systemInstruction.role == "" {
      ContentSetDefaults(c.systemInstruction);
    }
  }
}
