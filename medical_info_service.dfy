/**
  The medical-info service: a curated table of conditions, a two-stage lookup of
  an encyclopedia summary, and the assembly of one informational record from
  the two.
*/
module MedicalInfoService {
  import opened Wrappers
  import opened JsText
  import opened Extraction

  const Disclaimer := "⚠️ MEDICAL DISCLAIMER: This information is for educational purposes only and is not medical advice. Always consult a healthcare professional for diagnosis and treatment."

  /** The summary of the record returned when neither the table nor the encyclopedia knew the query. */
  const NoMatchSummary := "I'm searching my global records, but I " + NoMatchMarker + ". Please try a common disease name."

  /** The phrase of the no-match summary by which the dialogue recognises it. */
  const NoMatchMarker := "couldn't find a detailed match"

  /** The summary given to a curated record when the encyclopedia supplied no text. */
  const FetchingSummary := "Fetching global overview..."

  /** A curated entry; only some entries carry facts (`diseaseKnowledge`). */
  datatype Condition = Condition(
    name: string,
    causes: seq<string>,
    symptoms: seq<string>,
    precautions: seq<string>,
    medications: seq<string>,
    homeRemedies: seq<string>,
    diseaseKnowledge: Option<seq<string>>)

  /** The curated table, keyed by lower-case condition name, in insertion order. */
  const LocalConditions: seq<(string, Condition)> := [
      ("flu", Condition(
        name := "Influenza (Flu)",
        causes := ["Influenza viruses", "Airborne droplets", "Surface contact"],
        symptoms := ["Fever (100°F+)", "Dry cough", "Sore throat", "Muscle aches", "Fatigue"],
        precautions := ["Annual vaccine", "Frequent handwashing", "Avoiding crowds", "Wearing masks"],
        medications := ["Oseltamivir (Tamiflu)", "Acetaminophen/Paracetamol", "Ibuprofen"],
        homeRemedies := ["Drink plenty of warm fluids", "Bed rest", "Saltwater gargle", "Steam inhalation"],
        diseaseKnowledge := None)),
      ("migraine", Condition(
        name := "Migraine",
        causes := ["Genetic factors", "Stress", "Sensory triggers", "Sleep deprivation"],
        symptoms := ["Pulsating headache", "Nausea", "Light sensitivity", "Blurred vision"],
        precautions := ["Sleep schedule", "Stress management", "Identify food triggers", "Stay hydrated"],
        medications := ["Sumatriptan", "Ibuprofen", "Naproxen", "Aspirin"],
        homeRemedies := ["Rest in a dark/quiet room", "Cold compress on forehead", "Peppermint oil", "Ginger tea"],
        diseaseKnowledge := None)),
      ("diabetes", Condition(
        name := "Diabetes (Type 2)",
        causes := ["Insulin resistance", "Excess weight", "Physical inactivity", "Genetics"],
        symptoms := ["Excessive thirst", "Frequent urination", "Blurred vision", "Fatigue"],
        precautions := ["Balanced diet", "Daily exercise", "Weight control", "Blood sugar monitoring"],
        medications := ["Metformin", "Sulfonylureas", "Insulin", "SGLT2 inhibitors"],
        homeRemedies := ["Manage carb intake", "Increase fiber", "Stay hydrated", "Regular physical activity"],
        diseaseKnowledge := None)),
      ("malaria", Condition(
        name := "Malaria",
        causes := ["Plasmodium falciparum (most deadly) and P. vivax parasites", "Bite of an infected female Anopheles mosquito", "Transfusions or mother-to-child (rare)"],
        symptoms := ["Cyclical high fever (often every 48-72 hours)", "Shaking chills followed by intense heat", "Splenomegaly (enlarged spleen)", "Anemia and Jaundice", "Dry cough and abdominal pain", "Severe headache and muscle aches"],
        precautions := ["Long-lasting insecticidal nets (LLINs)", "Indoor residual spraying (IRS)", "DEET/Picaridin-based repellents", "Antimalarial chemoprophylaxis for travelers", "Clearing stagnant water to prevent breeding"],
        medications := ["Artemether-lumefantrine (Coartem)", "Chloroquine or Quinine sulfate", "Primaquine for liver-stage parasites", "Atovaquone-proguanil (Malarone)"],
        homeRemedies := ["ORS (Oral Rehydration Salts) for fluid loss", "Tepid water sponging to reduce core temperature", "High-carbohydrate, high-protein diet", "Absolute bed rest in a well-ventilated room"],
        diseaseKnowledge := Some(["Malaria is not contagious; it cannot be spread from person to person.", "The incubation period is typically 10–15 days after the mosquito bite.", "Over 200 million clinical cases occur globally each year.", "P. falciparum accounts for the majority of malaria deaths globally."]))),
      ("hypertension", Condition(
        name := "Hypertension (High Blood Pressure)",
        causes := ["High salt intake", "Age", "Genetics", "Chronic stress"],
        symptoms := ["Often no signs", "Morning headaches", "Nosebleeds", "Vision changes"],
        precautions := ["Reduce sodium", "Regular cardio", "Limit alcohol", "Deep breathing"],
        medications := ["ACE inhibitors", "Beta-blockers", "Diuretics", "Calcium channel blockers"],
        homeRemedies := ["DASH diet", "Low-sodium meals", "Potassium-rich foods", "Daily brisk walk"],
        diseaseKnowledge := None)),
      ("ebola", Condition(
        name := "Ebola Virus Disease",
        causes := ["Ebolavirus", "Direct contact with blood/fluids", "Infected animals"],
        symptoms := ["Fever", "Severe headache", "Muscle pain", "Weakness", "Internal bleeding"],
        precautions := ["Avoid contact with fluids", "Sanitization", "Safe burial practices", "Hand hygiene"],
        medications := ["Inmazeb", "Ebanga", "Supportive care (IV fluids)"],
        homeRemedies := ["Strict isolation", "Replacement of electrolytes", "Nutritious recovery diet"],
        diseaseKnowledge := None)),
      ("measles", Condition(
        name := "Measles (Rubeola)",
        causes := ["Measles virus", "Airborne droplets", "Coughing/Sneezing"],
        symptoms := ["High fever", "Koplik spots", "Red rash", "Cough", "Runny nose"],
        precautions := ["MMR vaccine", "Isolation", "Hand hygiene", "Quarantine"],
        medications := ["Vitamin A", "Acetaminophen", "Antibiotics (if secondary infection)"],
        homeRemedies := ["Rest in dimmed light", "Humidifier use", "Increased fluid intake"],
        diseaseKnowledge := None)),
      ("typhoid", Condition(
        name := "Typhoid Fever",
        causes := ["Salmonella Typhi bacteria", "Contaminated food/water"],
        symptoms := ["Prolonged fever", "Abdominal pain", "Rosy spots on chest", "Constipation/Diarrhea"],
        precautions := ["Typhoid vaccine", "Drink boiled water", "Eat hot/peeled food", "Handwashing"],
        medications := ["Ciprofloxacin", "Azithromycin", "Ceftriaxone"],
        homeRemedies := ["Cold water sponge", "ORS (Electrolytes)", "High-protein diet"],
        diseaseKnowledge := Some(["Caused by Salmonella Typhi, which only lives in humans.", "Spread through the 'fecal-oral' route via contaminated food.", "Modern antibiotics have made typhoid relatively easy to treat in healthy adults.", "If untreated, it can lead to intestinal perforation or internal bleeding."]))),
      ("hepatitis", Condition(
        name := "Hepatitis B",
        causes := ["HBV virus", "Infected blood", "Sexual contact", "Needle sharing"],
        symptoms := ["Jaundice (yellow skin)", "Dark urine", "Extreme fatigue", "Nausea"],
        precautions := ["Hepatitis B vaccine", "Safe practices", "Don't share razors/needles"],
        medications := ["Tenofovir", "Entecavir", "Interferon injections"],
        homeRemedies := ["Avoid alcohol", "High-carbohydrate diet", "Physical rest"],
        diseaseKnowledge := None)),
      ("anemia", Condition(
        name := "Iron Deficiency Anemia",
        causes := ["Lack of iron", "Blood loss", "Pregnancy", "Poor diet"],
        symptoms := ["Pale skin", "Shortness of breath", "Cold hands/feet", "Heart palpitations"],
        precautions := ["Iron-rich diet", "Regular screenings", "Limit tea/coffee with meals"],
        medications := ["Ferrous sulfate", "Iron injections", "B12 supplements"],
        homeRemedies := ["Eat spinach/lentils", "Vitamin C with iron (oranges)", "Cook in cast iron pots"],
        diseaseKnowledge := None)),
      ("asthma", Condition(
        name := "Asthma",
        causes := ["Airborne allergens", "Respiratory infections", "Cold air", "Exercise"],
        symptoms := ["Wheezing", "Chest tightness", "Shortness of breath", "Coughing"],
        precautions := ["Avoid triggers", "Air purifiers", "Regular checkups"],
        medications := ["Albuterol (Inhaler)", "Fluticasone", "Montelukast", "Salmeterol"],
        homeRemedies := ["Steam inhalation", "Breathing exercises (Buteyko)", "Avoid cold/dry air"],
        diseaseKnowledge := None)),
      ("pneumonia", Condition(
        name := "Pneumonia",
        causes := ["Bacteria (Streptococcus)", "Viruses", "Fungi", "Aspiration"],
        symptoms := ["Chest pain when breathing", "Phlegmy cough", "Fever/Chills", "Confusion (in elderly)"],
        precautions := ["Pneumococcal vaccine", "Flu shot", "No smoking", "Handwashing"],
        medications := ["Antibiotics (Macrolides)", "Azithromycin", "Cough suppressants"],
        homeRemedies := ["Warm peppermint tea", "Garlic tea", "Chest massage", "Hydration"],
        diseaseKnowledge := None)),
      ("tuberculosis", Condition(
        name := "Tuberculosis (TB)",
        causes := ["Bacterial infection", "Prolonged close contact"],
        symptoms := ["Cough for 3+ weeks", "Blood in sputum", "Night sweats", "Weight loss"],
        precautions := ["BCG Vaccine", "Well-ventilated rooms", "Covering mouth", "Hand hygiene"],
        medications := ["Isoniazid", "Rifampicin", "Pyrazinamide", "Ethambutol"],
        homeRemedies := ["Nutrient-rich diet", "Garlic and ginger (supportive)", "Avoid smoke/dust"],
        diseaseKnowledge := None)),
      ("dengue", Condition(
        name := "Dengue Fever",
        causes := ["Dengue virus", "Day-biting Aedes mosquitoes"],
        symptoms := ["High fever", "Joint/bone pain", "Pain behind eyes", "Skin rash"],
        precautions := ["Mosquito repellent", "Screening windows", "Full-length clothing"],
        medications := ["Acetaminophen (strictly)", "Avoid Ibuprofen/Aspirin", "IV fluids"],
        homeRemedies := ["Papaya leaf extract", "Coconut water", "Stay hydrated", "Bed rest"],
        diseaseKnowledge := None)),
      ("alzheimer", Condition(
        name := "Alzheimer's",
        causes := ["Protein plaques in brain", "Aging", "Genetics"],
        symptoms := ["Progressive memory loss", "Wandering", "Confusion", "Language problems"],
        precautions := ["Mental exercises", "Heart-healthy diet", "Physical activity"],
        medications := ["Donepezil", "Memantine", "Rivastigmine"],
        homeRemedies := ["Structured daily routine", "Safe environment", "Memory aids/reminders"],
        diseaseKnowledge := None)),
      ("covid", Condition(
        name := "COVID-19",
        causes := ["SARS-CoV-2 virus", "Airborne transmission"],
        symptoms := ["Fever/Chills", "Dry cough", "Shortness of breath", "Loss of taste"],
        precautions := ["Masking", "Social distancing", "Hand sanitation", "Vaccination"],
        medications := ["Paxlovid", "Molnupiravir", "Symptomatic support"],
        homeRemedies := ["Hydration", "Prone breathing techniques", "Warm decoctions (Kadha)", "Gargling"],
        diseaseKnowledge := None)),
      ("depression", Condition(
        name := "Clinical Depression",
        causes := ["Chemical imbalance", "Life stress", "Trauma", "Family history"],
        symptoms := ["Low mood", "Sleep issues", "Change in appetite", "Loss of energy"],
        precautions := ["Physical movement", "Social connection", "Regular sleep", "Avoiding alcohol"],
        medications := ["SSRIs (Prozac, Zoloft)", "SNRIs", "Psychotherapy"],
        homeRemedies := ["Morning sunlight", "Yoga/Meditation", "Journaling", "Nutritious diet"],
        diseaseKnowledge := None)),
      ("cancer", Condition(
        name := "Cancer",
        causes := ["DNA mutations", "Carcinogens (Tobacco, UV)", "Obesity"],
        symptoms := ["Lumps", "Unexplained weight loss", "Fatigue", "Persistent cough"],
        precautions := ["No tobacco", "Healthy weight", "Sun protection", "Regular screenings"],
        medications := ["Chemotherapy", "Targeted therapy", "Surgery", "Radiation"],
        homeRemedies := ["Ginger for nausea", "Small/frequent meals", "Light stretching", "Support groups"],
        diseaseKnowledge := None)),
      ("cholera", Condition(
        name := "Cholera",
        causes := ["Vibrio cholerae bacteria", "Contaminated water/food"],
        symptoms := ["Painless watery diarrhea (Rice water)", "Leg cramps", "Rapid heart rate"],
        precautions := ["Drink safe water", "Wash hands often", "Cook food thoroughly"],
        medications := ["Oral Rehydration (ORS)", "Doxycycline", "Azithromycin"],
        homeRemedies := ["Lemon water", "Probiotics", "Coconut water", "Thin gruel"],
        diseaseKnowledge := None)),
      ("zika", Condition(
        name := "Zika Virus",
        causes := ["Zika virus", "Aedes mosquito bites", "Sexual transmission"],
        symptoms := ["Fever", "Rash", "Joint pain", "Conjunctivitis (red eyes)"],
        precautions := ["Mosquito prevention", "Safe practices", "Protective clothing"],
        medications := ["Rest", "Fluids", "Acetaminophen for pain"],
        homeRemedies := ["Eucalyptus oil repellent", "Bed rest", "Hydrating soups"],
        diseaseKnowledge := None)),
      ("polio", Condition(
        name := "Poliomyelitis (Polio)",
        causes := ["Poliovirus", "Fecal-oral route", "Contaminated food/water"],
        symptoms := ["Nausea", "Stiffness in back/neck", "Muscle weakness", "Paralysis"],
        precautions := ["Polio vaccine (OPV/IPV)", "Sanitation", "Hygiene"],
        medications := ["Pain relievers", "Physical therapy", "Portable ventilators"],
        homeRemedies := ["Nutritious diet", "Gentle massage", "Bed rest during acute phase"],
        diseaseKnowledge := None))
    ]

  const SymptomKeywords := ["symptom", "sign", "manifestation", "feel", "characterized by", "including"]
  const PrecautionKeywords := ["prevent", "avoid", "precaution", "risk", "lifestyle", "control", "reduction"]
  const MedicationKeywords := ["medication", "treatment", "drug", "therapy", "prescribe", "management", "remedy"]
  const RemedyKeywords := ["remedy", "home", "natural", "supportive", "water", "rest", "diet", "herbal"]
  const CauseKeywords := ["cause", "due to", "result of", "origin", "linked to", "etiology"]
  const KnowledgeKeywords := ["known as", "history", "discovered", "global", "impact", "research", "scientific", "study"]

  /** Every list of the table except the facts is present and non-empty; only malaria and typhoid carry facts. */
  lemma CuratedTableShape()
    ensures forall i | 0 <= i < |LocalConditions| ::
      var c := LocalConditions[i].1;
      && |c.causes| > 0 && |c.symptoms| > 0 && |c.precautions| > 0
      && |c.medications| > 0 && |c.homeRemedies| > 0
      && (c.diseaseKnowledge.Some? <==> LocalConditions[i].0 == "malaria" || LocalConditions[i].0 == "typhoid")
      && (c.diseaseKnowledge.Some? ==> |c.diseaseKnowledge.value| > 0)
  {
  }

  /** The lookup rule: the lower-cased query contains the key, or the key contains the query. */
  predicate KeyMatches(normalizedQuery: string, key: string) {
    Contains(normalizedQuery, key) || Contains(key, normalizedQuery)
  }

  /** The index of the first entry at or after `i` whose key matches. */
  function FirstMatchFrom(normalizedQuery: string, i: nat): (r: Option<nat>)
    requires i <= |LocalConditions|
    ensures r.Some? ==> i <= r.value < |LocalConditions| && KeyMatches(normalizedQuery, LocalConditions[r.value].0)
    ensures forall j | i <= j < (if r.Some? then r.value else |LocalConditions|) ::
      !KeyMatches(normalizedQuery, LocalConditions[j].0)
    decreases |LocalConditions| - i
  {
    if i == |LocalConditions| then None
    else if KeyMatches(normalizedQuery, LocalConditions[i].0) then Some(i)
    else FirstMatchFrom(normalizedQuery, i + 1)
  }

  /** The curated record for `query`, if any: the first in table order whose key matches. */
  function FindCondition(query: string): (r: Option<Condition>)
    ensures r.None? <==> forall j | 0 <= j < |LocalConditions| :: !KeyMatches(ToLower(query), LocalConditions[j].0)
    ensures r.Some? ==> exists k | 0 <= k < |LocalConditions| ::
      && r.value == LocalConditions[k].1
      && KeyMatches(ToLower(query), LocalConditions[k].0)
      && forall j | 0 <= j < k :: !KeyMatches(ToLower(query), LocalConditions[j].0)
  {
    match FirstMatchFrom(ToLower(query), 0)
    case None => None
    case Some(k) => Some(LocalConditions[k].1)
  }

  /** A thumbnail as the summary endpoint describes it. */
  datatype Thumbnail = Thumbnail(source: Option<string>, original: Option<string>)

  /** The fields of a page-summary response the service reads; `extract` may be missing. */
  datatype PageSummary = PageSummary(title: string, extract: Option<string>, thumbnail: Option<Thumbnail>)

  /** How one page-summary request ends: status 404, a successful status with its parsed body, any other status, or an exception. */
  datatype SummaryReply = NotFound | Ok(page: PageSummary) | OtherStatus | Threw

  /** How the full-text search ends: an exception, or the title of its top hit if there is one. */
  datatype SearchReply = SearchThrew | SearchResults(top: Option<string>)

  /**
    The replies the encyclopedia gives to the requests of one lookup, in the
    order they may be issued: the summary of the query, the search for it, and
    the summary of the top hit's title.
  */
  datatype Responses = Responses(primary: SummaryReply, search: SearchReply, secondary: SummaryReply)

  datatype Request = SummaryRequest(title: string) | SearchRequest(terms: string)

  /** What the lookup yields: a title, a summary text (missing when the page has no extract), an image, and the requests issued. */
  datatype Resolution = Resolution(title: string, summary: Option<string>, imageUrl: Option<string>, requests: seq<Request>)

  /** JavaScript truthiness of a possibly missing string. */
  predicate Truthy(s: Option<string>) {
    s.Some? && s.value != ""
  }

  /** `thumbnail?.original || thumbnail?.source`. */
  function PreferredImage(thumbnail: Option<Thumbnail>): (r: Option<string>)
    ensures thumbnail.Some? && Truthy(thumbnail.value.original) ==> r == thumbnail.value.original
    ensures thumbnail.Some? && !Truthy(thumbnail.value.original) ==> r == thumbnail.value.source
    ensures thumbnail.None? ==> r.None?
  {
    match thumbnail
    case None => None
    case Some(t) => if Truthy(t.original) then t.original else t.source
  }

  function FromPage(page: PageSummary, requests: seq<Request>): Resolution {
    Resolution(page.title, page.extract, PreferredImage(page.thumbnail), requests)
  }

  /** The page that answered the lookup, if any. */
  function AnsweringPage(net: Responses): Option<PageSummary> {
    match net.primary
    case Ok(page) => Some(page)
    case NotFound =>
      if net.search.SearchResults? && net.search.top.Some? && net.secondary.Ok? then Some(net.secondary.page) else None
    case _ => None
  }

  /**
    The encyclopedia step: look the query up; on a 404 search for it and look
    up the top hit's title; any other failure keeps the empty summary and the
    query as title.
  */
  function Resolve(query: string, net: Responses): (r: Resolution)
    ensures |r.requests| >= 1 && r.requests[0] == SummaryRequest(query)
    ensures |r.requests| > 1 <==> net.primary.NotFound?
    ensures net.primary.NotFound? ==> r.requests[1] == SearchRequest(query)
    ensures |r.requests| == 3 <==> net.primary.NotFound? && net.search.SearchResults? && net.search.top.Some?
    ensures |r.requests| == 3 ==> r.requests[2] == SummaryRequest(net.search.top.value)
    ensures |r.requests| <= 3
    ensures AnsweringPage(net).None? ==> r.title == query && r.summary == Some("") && r.imageUrl.None?
    ensures AnsweringPage(net).Some? ==>
      var page := AnsweringPage(net).value;
      r.title == page.title && r.summary == page.extract && r.imageUrl == PreferredImage(page.thumbnail)
  {
    var unresolved := (requests: seq<Request>) => Resolution(query, Some(""), None, requests);
    match net.primary
    case NotFound =>
      (match net.search
       case SearchResults(Some(newQuery)) =>
         var requests := [SummaryRequest(query), SearchRequest(query), SummaryRequest(newQuery)];
         if net.secondary.Ok? then FromPage(net.secondary.page, requests) else unresolved(requests)
       case _ => unresolved([SummaryRequest(query), SearchRequest(query)]))
    case Ok(page) => FromPage(page, [SummaryRequest(query)])
    case _ => unresolved([SummaryRequest(query)])
  }

  /** The one way the assembly fails: extracting from a summary that is `undefined`. */
  datatype Failure = SplitOfUndefined

  /** The record handed to the dialogue; an absent list is `undefined`, never empty. */
  datatype MedicalInfo = MedicalInfo(
    title: string,
    summary: string,
    imageUrl: Option<string>,
    causes: Option<seq<string>>,
    symptoms: Option<seq<string>>,
    precautions: Option<seq<string>>,
    medications: Option<seq<string>>,
    homeRemedies: Option<seq<string>>,
    diseaseKnowledge: Option<seq<string>>,
    disclaimer: string)

  /** `curated || extractSection(summary, keywords)`: any curated list, even an empty one, wins. */
  function CuratedOrExtracted(curated: Option<seq<string>>, summary: Option<string>, keywords: seq<string>): (r: Result<seq<string>, Failure>)
    ensures curated.Some? ==> r == Success(curated.value)
    ensures curated.None? && summary.Some? ==> r == Success(ExtractSection(summary.value, keywords))
    ensures r.Failure? <==> curated.None? && summary.None?
  {
    if curated.Some? then Success(curated.value)
    else if summary.None? then Failure(SplitOfUndefined)
    else Success(ExtractSection(summary.value, keywords))
  }

  /** `xs.length > 0 ? xs : undefined`. */
  function NonEmpty(xs: seq<string>): (r: Option<seq<string>>)
    ensures r.Some? <==> |xs| > 0
    ensures r.Some? ==> r.value == xs
  {
    if |xs| > 0 then Some(xs) else None
  }

  function NoMatchInfo(title: string): MedicalInfo {
    MedicalInfo(title, NoMatchSummary, None, None, None, None, None, None, None, Disclaimer)
  }

  /** Merge a curated record (if any) with extraction over the resolved summary. */
  function Merge(condition: Option<Condition>, resolved: Resolution): Result<MedicalInfo, Failure> {
    var c := condition;
    var summary := resolved.summary;
    var symptoms := CuratedOrExtracted(if c.Some? then Some(c.value.symptoms) else None, summary, SymptomKeywords);
    var precautions := CuratedOrExtracted(if c.Some? then Some(c.value.precautions) else None, summary, PrecautionKeywords);
    var medications := CuratedOrExtracted(if c.Some? then Some(c.value.medications) else None, summary, MedicationKeywords);
    var remedies := CuratedOrExtracted(if c.Some? then Some(c.value.homeRemedies) else None, summary, RemedyKeywords);
    var causes := CuratedOrExtracted(if c.Some? then Some(c.value.causes) else None, summary, CauseKeywords);
    var knowledge := CuratedOrExtracted(if c.Some? then c.value.diseaseKnowledge else None, summary, KnowledgeKeywords);
    if symptoms.Failure? || precautions.Failure? || medications.Failure? || remedies.Failure?
       || causes.Failure? || knowledge.Failure?
    then Failure(SplitOfUndefined)
    else Success(MedicalInfo(
      title := if c.Some? then c.value.name else resolved.title,
      summary := if Truthy(summary) then summary.value else FetchingSummary,
      imageUrl := resolved.imageUrl,
      causes := NonEmpty(causes.value),
      symptoms := NonEmpty(symptoms.value),
      precautions := NonEmpty(precautions.value),
      medications := NonEmpty(medications.value),
      homeRemedies := NonEmpty(remedies.value),
      diseaseKnowledge := NonEmpty(knowledge.value),
      disclaimer := Disclaimer))
  }

  /** What `fetchMedicalInfo(query)` settles to, given the encyclopedia's replies. */
  function Assemble(query: string, net: Responses): Result<MedicalInfo, Failure> {
    var condition := FindCondition(query);
    var resolved := Resolve(query, net);
    if !Truthy(resolved.summary) && condition.None? then Success(NoMatchInfo(resolved.title))
    else Merge(condition, resolved)
  }

  /** Every list present in the record is non-empty. */
  predicate ListsNeverEmpty(info: MedicalInfo) {
    && (info.causes.Some? ==> |info.causes.value| > 0)
    && (info.symptoms.Some? ==> |info.symptoms.value| > 0)
    && (info.precautions.Some? ==> |info.precautions.value| > 0)
    && (info.medications.Some? ==> |info.medications.value| > 0)
    && (info.homeRemedies.Some? ==> |info.homeRemedies.value| > 0)
    && (info.diseaseKnowledge.Some? ==> |info.diseaseKnowledge.value| > 0)
  }

  /** Neither the table nor the encyclopedia knew the query: the no-match record, with no lists and no image. */
  lemma NoMatchGivesPlaceholder(query: string, net: Responses)
    requires FindCondition(query).None? && !Truthy(Resolve(query, net).summary)
    ensures Assemble(query, net).Success?
    ensures var info := Assemble(query, net).value;
      && info.title == Resolve(query, net).title
      && (AnsweringPage(net).None? ==> info.title == query)
      && info.summary == NoMatchSummary
      && info.imageUrl.None?
      && info.causes.None? && info.symptoms.None? && info.precautions.None?
      && info.medications.None? && info.homeRemedies.None? && info.diseaseKnowledge.None?
      && info.disclaimer == Disclaimer
  {
  }

  /**
    The assembly throws exactly when a curated record without facts matched and
    the answering page had no extract, so the facts are extracted from `undefined`.
  */
  lemma AssembleFailsOnlyOnMissingExtract(query: string, net: Responses)
    ensures Assemble(query, net).Failure? <==>
      && FindCondition(query).Some?
      && FindCondition(query).value.diseaseKnowledge.None?
      && AnsweringPage(net).Some?
      && AnsweringPage(net).value.extract.None?
  {
  }

  /**
    With a curated match the title is the curated name and the five curated
    lists are taken as they are; the facts come from the table when it has
    them and from the encyclopedia text otherwise.
  */
  lemma CuratedFieldsWin(query: string, net: Responses, c: Condition)
    requires FindCondition(query) == Some(c)
    ensures Assemble(query, net).Success? ==>
      var info := Assemble(query, net).value;
      && info.title == c.name
      && info.causes == Some(c.causes)
      && info.symptoms == Some(c.symptoms)
      && info.precautions == Some(c.precautions)
      && info.medications == Some(c.medications)
      && info.homeRemedies == Some(c.homeRemedies)
      && (c.diseaseKnowledge.Some? ==> info.diseaseKnowledge == c.diseaseKnowledge)
      && (c.diseaseKnowledge.None? ==>
            info.diseaseKnowledge == NonEmpty(ExtractSection(Resolve(query, net).summary.value, KnowledgeKeywords)))
  {
    CuratedTableShape();
  }

  /** Two different encyclopedia answers cannot change what a curated match contributes. */
  lemma CuratedFieldsIgnoreSummary(query: string, net1: Responses, net2: Responses)
    requires FindCondition(query).Some?
    requires Assemble(query, net1).Success? && Assemble(query, net2).Success?
    ensures var a, b := Assemble(query, net1).value, Assemble(query, net2).value;
      && a.title == b.title && a.causes == b.causes && a.symptoms == b.symptoms
      && a.precautions == b.precautions && a.medications == b.medications
      && a.homeRemedies == b.homeRemedies
  {
    CuratedFieldsWin(query, net1, FindCondition(query).value);
    CuratedFieldsWin(query, net2, FindCondition(query).value);
  }

  /**
    Every assembled record carries the disclaimer, never an empty list, and the
    "fetching" summary exactly when a curated record matched and the
    encyclopedia gave no text (or gave that very text).
  */
  lemma AssembledRecordIsNormalized(query: string, net: Responses)
    requires Assemble(query, net).Success?
    ensures var info, resolved := Assemble(query, net).value, Resolve(query, net);
      && info.disclaimer == Disclaimer
      && ListsNeverEmpty(info)
      && info.summary != ""
      && (Truthy(resolved.summary) ==> info.summary == resolved.summary.value)
      && (info.summary == FetchingSummary <==>
            (FindCondition(query).Some? && !Truthy(resolved.summary)) || resolved.summary == Some(FetchingSummary))
      && (info.summary == NoMatchSummary <==>
            (FindCondition(query).None? && !Truthy(resolved.summary)) || resolved.summary == Some(NoMatchSummary))
  {
  }

  /** A list extracted from `text`: at most five distinct trimmed relevant sentences, each a piece of `text`. */
  predicate ExtractedFrom(xs: seq<string>, text: string, keywords: seq<string>) {
    && |xs| <= 5
    && Distinct(xs)
    && forall x | x in xs :: IsTrimmed(x) && Relevant(x, keywords) && Contains(text, x) && HasNoBreak(x)
  }

  /** Without a curated match, every list of the record was extracted from the encyclopedia text. */
  lemma UncuratedListsAreExtracted(query: string, net: Responses)
    requires FindCondition(query).None? && Assemble(query, net).Success?
    requires Truthy(Resolve(query, net).summary)
    ensures var info, text := Assemble(query, net).value, Resolve(query, net).summary.value;
      && (info.causes.Some? ==> ExtractedFrom(info.causes.value, text, CauseKeywords))
      && (info.symptoms.Some? ==> ExtractedFrom(info.symptoms.value, text, SymptomKeywords))
      && (info.precautions.Some? ==> ExtractedFrom(info.precautions.value, text, PrecautionKeywords))
      && (info.medications.Some? ==> ExtractedFrom(info.medications.value, text, MedicationKeywords))
      && (info.homeRemedies.Some? ==> ExtractedFrom(info.homeRemedies.value, text, RemedyKeywords))
      && (info.diseaseKnowledge.Some? ==> ExtractedFrom(info.diseaseKnowledge.value, text, KnowledgeKeywords))
  {
    var text := Resolve(query, net).summary.value;
    ExtractedSpansComeFromText(text, CauseKeywords);
    ExtractedSpansComeFromText(text, SymptomKeywords);
    ExtractedSpansComeFromText(text, PrecautionKeywords);
    ExtractedSpansComeFromText(text, MedicationKeywords);
    ExtractedSpansComeFromText(text, RemedyKeywords);
    ExtractedSpansComeFromText(text, KnowledgeKeywords);
  }

  /**
    Without a curated match but with encyclopedia text, the assembly succeeds with
    the page's title, summary and image, and each list is the extraction from
    that text, absent when nothing was extracted.
  */
  lemma UncuratedRecordIsExtracted(query: string, net: Responses)
    requires FindCondition(query).None? && Truthy(Resolve(query, net).summary)
    ensures Assemble(query, net).Success?
    ensures var info, r := Assemble(query, net).value, Resolve(query, net);
      var text := r.summary.value;
      && info.title == r.title
      && info.summary == text
      && info.imageUrl == r.imageUrl
      && info.causes == NonEmpty(ExtractSection(text, CauseKeywords))
      && info.symptoms == NonEmpty(ExtractSection(text, SymptomKeywords))
      && info.precautions == NonEmpty(ExtractSection(text, PrecautionKeywords))
      && info.medications == NonEmpty(ExtractSection(text, MedicationKeywords))
      && info.homeRemedies == NonEmpty(ExtractSection(text, RemedyKeywords))
      && info.diseaseKnowledge == NonEmpty(ExtractSection(text, KnowledgeKeywords))
      && info.disclaimer == Disclaimer
  {
  }

  /** Whenever the record is merged rather than the placeholder, its image is the one the encyclopedia gave. */
  lemma MergedImageComesFromPage(query: string, net: Responses)
    requires FindCondition(query).Some? || Truthy(Resolve(query, net).summary)
    ensures Assemble(query, net).Success? ==> Assemble(query, net).value.imageUrl == Resolve(query, net).imageUrl
  {
  }

  /** The search is issued only after a 404, and the second summary request is for the top hit's title. */
  lemma SearchOnlyAfterNotFound(query: string, net: Responses)
    ensures SearchRequest(query) in Resolve(query, net).requests <==> net.primary.NotFound?
    ensures forall t | SummaryRequest(t) in Resolve(query, net).requests ::
      t == query || (net.primary.NotFound? && net.search == SearchResults(Some(t)))
  {
    var r := Resolve(query, net).requests;
    assert |r| == 1 ==> r == [SummaryRequest(query)];
    assert |r| == 2 ==> r == [SummaryRequest(query), SearchRequest(query)];
    assert |r| == 3 ==> r == [SummaryRequest(query), SearchRequest(query), SummaryRequest(net.search.top.value)];
  }

  /** A query whose lower-cased form misses the first key and matches the second finds the second entry. */
  lemma SecondEntryMatches(normalizedQuery: string)
    requires !KeyMatches(normalizedQuery, LocalConditions[0].0) && KeyMatches(normalizedQuery, LocalConditions[1].0)
    ensures FirstMatchFrom(normalizedQuery, 0) == Some(1)
  {
  }

  /** Lower-cased, the migraine query misses the first key, "flu", and contains the second, "migraine". */
  lemma MigraineQueryKeys(q: string)
    requires q == "i have a bad migraine"
    ensures !KeyMatches(q, LocalConditions[0].0) && KeyMatches(q, LocalConditions[1].0)
  {
    NotContains(q, "flu") by { assert 'f' in "flu" && 'f' !in q; }
    NotContains("flu", q);
    ContainsFromOccurrence(q, "migraine", 13);
  }

  lemma LowerMigraineQuery(query: string)
    requires query == "I have a bad migraine"
    ensures ToLower(query) == "i have a bad migraine"
  {
  }

  /** "I have a bad migraine" resolves to the curated migraine record: "flu" is neither in it nor around it. */
  lemma MigraineQueryFindsMigraine(query: string)
    requires query == "I have a bad migraine"
    ensures FindCondition(query) == Some(LocalConditions[1].1)
  {
    LowerMigraineQuery(query);
    MigraineQueryKeys(ToLower(query));
    SecondEntryMatches(ToLower(query));
  }

  /** The second entry of the table is the migraine record. */
  lemma MigraineEntry()
    ensures LocalConditions[1].1.name == "Migraine"
    ensures LocalConditions[1].1.medications == ["Sumatriptan", "Ibuprofen", "Naproxen", "Aspirin"]
  {
  }

  /** The migraine query's record is titled "Migraine" and lists exactly the four curated medications. */
  lemma MigraineQuery(query: string, net: Responses)
    requires query == "I have a bad migraine"
    ensures Assemble(query, net).Success? ==>
      var info := Assemble(query, net).value;
      info.title == "Migraine" && info.medications == Some(["Sumatriptan", "Ibuprofen", "Naproxen", "Aspirin"])
  {
    MigraineQueryFindsMigraine(query);
    MigraineEntry();
    CuratedFieldsWin(query, net, LocalConditions[1].1);
  }

  /** A query of "flu" gets the curated influenza title and exactly its five symptoms, whatever the encyclopedia says. */
  lemma FluQuery(net: Responses)
    ensures Assemble("flu", net).Success? ==>
      var info := Assemble("flu", net).value;
      && info.title == "Influenza (Flu)"
      && info.symptoms == Some(["Fever (100°F+)", "Dry cough", "Sore throat", "Muscle aches", "Fatigue"])
  {
    assert ToLower("flu") == "flu";
    assert Contains("flu", "flu");
    assert FirstMatchFrom("flu", 0) == Some(0);
    CuratedFieldsWin("flu", net, LocalConditions[0].1);
  }

  /** A one-letter query matches by containment: "i" is inside "migraine", the second key, but not inside "flu". */
  lemma ShortQueryMatchesByContainment()
    ensures FindCondition("i") == Some(LocalConditions[1].1)
  {
    assert ToLower("i") == "i";
    NotContains("i", "flu");
    NotContains("flu", "i") by { assert 'i' in "i" && 'i' !in "flu"; }
    ContainsFromOccurrence("migraine", "i", 1);
    assert FirstMatchFrom("i", 0) == Some(1);
  }

  /** The `for ... of` scan of the curated table that stops at the first matching key. */
  method FindLocalCondition(normalizedQuery: string) returns (conditionData: Option<Condition>)
    ensures conditionData == match FirstMatchFrom(normalizedQuery, 0)
      case None => None
      case Some(k) => Some(LocalConditions[k].1)
  {
    conditionData := None;
    var i := 0;
    while i < |LocalConditions|
      invariant i <= |LocalConditions|
      invariant FirstMatchFrom(normalizedQuery, i) == FirstMatchFrom(normalizedQuery, 0)
      invariant conditionData.None?
    {
      var key := LocalConditions[i].0;
      if Contains(normalizedQuery, key) || Contains(key, normalizedQuery) {
        conditionData := Some(LocalConditions[i].1);
        break;
      }
      i := i + 1;
    }
  }

  /**
    `fetchMedicalInfo`: scan the table for the first matching key, run the
    encyclopedia protocol, and build the record. Also returns the requests it
    issued, in order.
  */
  method FetchMedicalInfo(query: string, net: Responses) returns (result: Result<MedicalInfo, Failure>, requests: seq<Request>)
    ensures result == Assemble(query, net)
    ensures requests == Resolve(query, net).requests
  {
    // 1. The curated table.
    var conditionData := FindLocalCondition(ToLower(query));

    // 2. The encyclopedia.
    var summary: Option<string> := Some("");
    var title := query;
    var imageUrl: Option<string> := None;
    requests := [SummaryRequest(query)];
    match net.primary {
      case NotFound =>
        requests := requests + [SearchRequest(query)];
        if net.search.SearchResults? && net.search.top.Some? {
          var newQuery := net.search.top.value;
          requests := requests + [SummaryRequest(newQuery)];
          if net.secondary.Ok? {
            var data := net.secondary.page;
            summary := data.extract;
            title := data.title;
            imageUrl := PreferredImage(data.thumbnail);
          }
        }
      case Ok(data) =>
        summary := data.extract;
        title := data.title;
        imageUrl := PreferredImage(data.thumbnail);
      case OtherStatus =>
      case Threw =>
    }
    assert Resolution(title, summary, imageUrl, requests) == Resolve(query, net);

    if !Truthy(summary) && conditionData.None? {
      result := Success(NoMatchInfo(title));
      return;
    }

    // 3. Curated lists where present, extraction elsewhere.
    var c := conditionData;
    var symptoms := CuratedOrExtracted(if c.Some? then Some(c.value.symptoms) else None, summary, SymptomKeywords);
    var precautions := CuratedOrExtracted(if c.Some? then Some(c.value.precautions) else None, summary, PrecautionKeywords);
    var medications := CuratedOrExtracted(if c.Some? then Some(c.value.medications) else None, summary, MedicationKeywords);
    var remedies := CuratedOrExtracted(if c.Some? then Some(c.value.homeRemedies) else None, summary, RemedyKeywords);
    var causes := CuratedOrExtracted(if c.Some? then Some(c.value.causes) else None, summary, CauseKeywords);
    var knowledge := CuratedOrExtracted(if c.Some? then c.value.diseaseKnowledge else None, summary, KnowledgeKeywords);
    if symptoms.Failure? || precautions.Failure? || medications.Failure? || remedies.Failure?
       || causes.Failure? || knowledge.Failure? {
      // the TypeError raised by the first extraction over an `undefined` summary
      result := Failure(SplitOfUndefined);
      return;
    }

    result := Success(MedicalInfo(
      title := if c.Some? then c.value.name else title,
      summary := if Truthy(summary) then summary.value else FetchingSummary,
      imageUrl := imageUrl,
      causes := NonEmpty(causes.value),
      symptoms := NonEmpty(symptoms.value),
      precautions := NonEmpty(precautions.value),
      medications := NonEmpty(medications.value),
      homeRemedies := NonEmpty(remedies.value),
      diseaseKnowledge := NonEmpty(knowledge.value),
      disclaimer := Disclaimer));
  }
}
