/** Campaign attribution: the flags derived from a free-text description, the
    project label sent to the CRM and the description written on a charge. */
module Campaign {
  import opened Wrappers
  import Js
  import Stripe

  /** `{email, locale}` plus the flag the description selects: "Thunderbird"
      wins over "glassroomnyc", so at most one flag is set. */
  function Tagged(email: Option<string>, locale: Option<string>, description: string): (m: Stripe.Metadata)
    ensures m.email == email && m.locale == locale
    ensures m.thunderbird <==> Js.Contains(description, "Thunderbird")
    ensures m.glassroomnyc <==> !Js.Contains(description, "Thunderbird") && Js.Contains(description, "glassroomnyc")
    ensures !(m.thunderbird && m.glassroomnyc)
  {
    var m := Stripe.Metadata(email, locale, false, false);
    if Js.IndexOf(description, "Thunderbird") >= 0 then m.(thunderbird := true)
    else if Js.IndexOf(description, "glassroomnyc") >= 0 then m.(glassroomnyc := true)
    else m
  }

  /** The project label: always one of three, "thunderbird" taking precedence. */
  function Project(m: Stripe.Metadata): (p: string)
    ensures p == "thunderbird" || p == "glassroomnyc" || p == "mozillafoundation"
    ensures p == "thunderbird" <==> m.thunderbird
    ensures p == "glassroomnyc" <==> !m.thunderbird && m.glassroomnyc
  {
    if m.thunderbird then "thunderbird" else if m.glassroomnyc then "glassroomnyc" else "mozillafoundation"
  }

  /** The description written back on a recurring charge, with the same priority. */
  function ChargeDescription(m: Stripe.Metadata): (d: string)
    ensures d == "Thunderbird monthly" <==> m.thunderbird
    ensures d == "glassroomnyc monthly" <==> !m.thunderbird && m.glassroomnyc
    ensures d == "Mozilla Foundation Monthly Donation" <==> !m.thunderbird && !m.glassroomnyc
  {
    if m.thunderbird then "Thunderbird monthly"
    else if m.glassroomnyc then "glassroomnyc monthly"
    else "Mozilla Foundation Monthly Donation"
  }

  /** The charge description and the project label name the same campaign. */
  lemma DescriptionAgreesWithProject(m: Stripe.Metadata)
    ensures ChargeDescription(m) == "Thunderbird monthly" <==> Project(m) == "thunderbird"
    ensures ChargeDescription(m) == "glassroomnyc monthly" <==> Project(m) == "glassroomnyc"
    ensures ChargeDescription(m) == "Mozilla Foundation Monthly Donation" <==> Project(m) == "mozillafoundation"
  {
  }

  /** End to end: the project of a tagged donation is determined by the description text. */
  lemma ProjectOfDescription(email: Option<string>, locale: Option<string>, description: string)
    ensures Project(Tagged(email, locale, description)) ==
      if Js.Contains(description, "Thunderbird") then "thunderbird"
      else if Js.Contains(description, "glassroomnyc") then "glassroomnyc"
      else "mozillafoundation"
  {
  }
}
