/** The questionnaire (`DIMENSIONS` in app.py): named dimensions, each with an
    ordered list of question prompts. A Python dict keeps insertion order and
    holds each key once, so a catalog is a sequence with distinct names. */
module Catalog {

  datatype Dimension = Dimension(name: string, questions: seq<string>)

  /** The dict's keys are unique. */
  predicate DistinctNames(catalog: seq<Dimension>)
  {
    forall i, j :: 0 <= i < j < |catalog| ==> catalog[i].name != catalog[j].name
  }

  /** `list(DIMENSIONS.keys())`: the dimension names in catalog order. */
  function Names(catalog: seq<Dimension>): (names: seq<string>)
    ensures |names| == |catalog|
    ensures forall i :: 0 <= i < |catalog| ==> names[i] == catalog[i].name
  {
    seq(|catalog|, i requires 0 <= i < |catalog| => catalog[i].name)
  }

  /** The shipped questionnaire. */
  const Dimensions: seq<Dimension> := [
    Dimension("Product", [
      "We have at least a functional prototype tested in a relevant environment (pilot, lab, early users).",
      "The product clearly addresses Defence-related needs (surveillance, logistics, cyber, C2, etc.).",
      "We have identified specific Defence technical requirements (standards, interoperability) and started adapting the product.",
      "We have the capacity (in-house or via partners) to deliver pilots or small Defence contracts."
    ]),
    Dimension("Market", [
      "We know the main customers and decision-makers in Defence (MoD, Armed Forces, NATO, EU, integrators).",
      "We already had meetings or active contacts with potential Defence clients or partners.",
      "We have strategic partnerships with organisations already established in the Defence sector.",
      "We have a dedicated value proposition for Defence, distinct from our civil/commercial offer."
    ]),
    Dimension("Documentation", [
      "Relevant IP (patents, software, trademarks) is identified and protected where needed.",
      "Technical documentation (architectures, specs, manuals, data sheets) is organised and up to date.",
      "We have NDA templates and contract templates suitable for pilots/partnerships in Defence.",
      "We have identified and started relevant licensing/accreditation processes to operate in Defence."
    ]),
    Dimension("Security", [
      "We have basic information security policies (access control, passwords, backups, device management).",
      "Sensitive information (code, data, critical docs) is protected (encryption, restricted access, separated environments).",
      "Key staff received awareness/training on cybersecurity and information protection.",
      "Facilities/processes have adequate physical and organisational security (controlled access, visitor logs, restricted areas)."
    ]),
    Dimension("Certifications", [
      "We have relevant quality certifications (e.g. ISO 9001) OR processes already close to that level.",
      "We have or are implementing information security practices/certifications (e.g. ISO 27001).",
      "We identified Defence-specific or adjacent certifications (aero/space, cyber) that may be required.",
      "There is a certification roadmap with priorities, timelines and estimated resources."
    ])
  ]

  /** The shipped questionnaire has five distinct dimensions of four questions each. */
  lemma ShippedCatalogShape()
    ensures |Dimensions| == 5 && DistinctNames(Dimensions)
    ensures Names(Dimensions) == ["Product", "Market", "Documentation", "Security", "Certifications"]
    ensures forall i :: 0 <= i < |Dimensions| ==> |Dimensions[i].questions| == 4
  {
  }
}
