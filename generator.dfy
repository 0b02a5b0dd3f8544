/** The synthetic Hebrew corpus of the retrieval experiment: filler documents
    built from per-domain sentence templates, one of which carries the
    needle fact. */
module Generator {
  import opened Text
  import opened Slicing
  import opened Values
  import opened Randomness
  import opened Drawing

  /** One generated document. */
  datatype Document = Document(id: int, domain: string, text: string, hasNeedle: bool, needleFact: string)

  datatype NeedleConfig = NeedleConfig(query: string, fact: string, docIndex: int)

  datatype DatasetConfig = DatasetConfig(
    totalDocs: int,
    docLengthWords: int,
    targetDomain: string,
    distractorDomains: seq<string>,
    needle: NeedleConfig)

  /** The three domains that have sentence templates. */
  datatype Domain = Medicine | Law | Technology

  /** The key `TEMPLATES.get(domain, TEMPLATES["technology"])` ends up
      using: an unknown domain falls back to technology. */
  function DomainOf(domain: string): Domain {
    if domain == "medicine" then Medicine
    else if domain == "law" then Law
    else Technology
  }

  /** Template `k` of domain `d` without its closing full stop (the
      tenth is the default). */
  function Clause(d: Domain, k: nat): string {
    match d
    case Medicine =>
      if k == 0 then "המחקר הרפואי מתקדם בצעדי ענק בשנים האחרונות"
      else if k == 1 then "רופאים ממליצים על תזונה מאוזנת ופעילות גופנית סדירה"
      else if k == 2 then "בתי החולים עמוסים במטופלים הזקוקים לטיפול דחוף"
      else if k == 3 then "תרופות חדשות נכנסות לסל הבריאות מדי שנה"
      else if k == 4 then "מערכת החיסון היא קו ההגנה הראשון של הגוף"
      else if k == 5 then "בדיקות דם שגרתיות יכולות למנוע מחלות רבות"
      else if k == 6 then "התפתחות הטכנולוגיה הרפואית מאפשרת ניתוחים מורכבים"
      else if k == 7 then "בריאות הנפש היא חלק בלתי נפרד מהבריאות הכללית"
      else if k == 8 then "ויטמינים ומינרלים חיוניים לתפקוד התקין של הגוף"
      else "הצוות הרפואי עובד מסביב לשעון להצלת חיים"
    case Law =>
      if k == 0 then "בית המשפט פסק לטובת התובע לאחר דיון ארוך"
      else if k == 1 then "חוק החוזים מחייב תום לב במשא ומתן לקראת כריתת חוזה"
      else if k == 2 then "עורכי דין מייצגים את לקוחותיהם בערכאות השונות"
      else if k == 3 then "החקיקה החדשה נועדה להגן על זכויות הצרכן"
      else if k == 4 then "דיני קניין רוחני עוסקים בהגנה על יצירות ומותגים"
      else if k == 5 then "רשלנות רפואית היא עילה לתביעה נזיקית"
      else if k == 6 then "בית המשפט העליון קבע תקדים משפטי מחייב"
      else if k == 7 then "הסכמים בינלאומיים מחייבים את המדינות החתומות עליהם"
      else if k == 8 then "זכויות אדם הן נר לרגליה של הדמוקרטיה"
      else "הליך הגישור מאפשר פתרון סכסוכים מחוץ לכותלי בית המשפט"
    case Technology =>
      if k == 0 then "בינה מלאכותית משנה את הדרך בה אנו עובדים ולומדים"
      else if k == 1 then "אבטחת מידע היא אתגר מרכזי בארגונים גדולים"
      else if k == 2 then "מחשוב ענן מאפשר גמישות ויעילות בעבודה מרחוק"
      else if k == 3 then "רשתות חברתיות מחברות בין אנשים מכל רחבי העולם"
      else if k == 4 then "האינטרנט של הדברים מחבר מכשירים יומיומיים לרשת"
      else if k == 5 then "פיתוח תוכנה דורש חשיבה לוגית ויצירתיות"
      else if k == 6 then "אלגוריתמים מתקדמים מפעילים את מנועי החיפוש"
      else if k == 7 then "טכנולוגיית הבלוקצ'יין מבטיחה שקיפות ואמינות"
      else if k == 8 then "רובוטיקה מתקדמת משתלבת בתעשייה ובחיי היומיום"
      else "מציאות מדומה פותחת אפשרויות חדשות במשחקים ובהדרכה"
  }

  /** Template `k` of domain `d`: every template is one sentence closed by
      a full stop. */
  function Template(d: Domain, k: nat): string {
    Clause(d, k) + "."
  }

  /** `TEMPLATES[d]`: the ten sentences of a domain, in list order. */
  function Templates(d: Domain): (ts: seq<string>)
    ensures |ts| == 10 && EndsWithStops(ts)
  {
    seq(10, k requires 0 <= k < 10 => Template(d, k))
  }

  /** `TEMPLATES.get(domain, TEMPLATES["technology"])`: ten sentences
      closed by full stops, those of technology for a domain without
      templates of its own. */
  function TemplatesFor(domain: string): (ts: seq<string>)
    ensures |ts| == 10 && EndsWithStops(ts)
    ensures domain != "medicine" && domain != "law" ==> ts == Templates(Technology)
  {
    Templates(DomainOf(domain))
  }

  /** `generate_filler_text(domain, min_words)`: the drawn sentences
      `parts` joined with spaces.  Re-splitting the text gives their words,
      so it has at least `minWords` words and fewer than `minWords` plus
      the longest template; no positive budget, no sentence. */
  method GenerateFillerText(domain: string, minWords: int, rng: Random) returns (text: string, ghost parts: seq<string>)
    modifies rng
    ensures rng.draws == old(rng.draws) + |parts|
    ensures parts == Drawn(rng, TemplatesFor(domain), old(rng.draws), |parts|)
    ensures text == Join(" ", parts)
    ensures |SplitAll(parts)| >= minWords && ShortPrefixes(parts, minWords)
    ensures |Split(text)| >= minWords
    ensures minWords <= 0 ==> parts == [] && text == ""
    ensures minWords > 0 ==> |Split(text)| < minWords + MaxWords(TemplatesFor(domain))
  {
    var templates := TemplatesFor(domain);
    var drawn := DrawSentences(templates, minWords, rng);
    parts := drawn;
    text := Join(" ", drawn);
    SplitJoin(" ", drawn);
  }

  /** The needle document's text: the filler's words with the fact inserted
      as one element at `len(words) // 2`, joined with spaces. */
  function NeedleText(filler: string, fact: string): string {
    var words := Split(filler);
    var half := |words| / 2;
    Join(" ", words[..half] + [fact] + words[half..])
  }

  /** Re-reading the needle document gives the filler's words in their
      order, split at the middle, with the fact's own words between. */
  lemma {:induction false} NeedleTextWords(filler: string, fact: string)
    ensures var words := Split(filler);
      var half := |words| / 2;
      && Split(NeedleText(filler, fact)) == words[..half] + Split(fact) + words[half..]
      && |Split(NeedleText(filler, fact))| == |words| + |Split(fact)|
  {
    var words := Split(filler);
    var half := |words| / 2;
    SplitGivesWords(filler);
    assert words[..half] + words[half..] == words;
    SplitJoinInsert(words[..half], fact, words[half..]);
  }

  /** Where `final_domains[doc_index] = target_domain` lands: a negative index
      counts from the end. */
  function TargetSlot(config: DatasetConfig): int {
    if config.needle.docIndex < 0 then config.needle.docIndex + config.totalDocs else config.needle.docIndex
  }

  /** The dataset raises IndexError exactly when there is no document, no
      distractor domain to draw from, or the needle index is out of range. */
  predicate DatasetFails(config: DatasetConfig) {
    config.totalDocs <= 0 || config.distractorDomains == []
    || !InIndexRange(config.needle.docIndex, config.totalDocs)
  }

  /** Document `i` as the loop of `generate_dataset` builds it from its
      domain and its filler text: only the document at `needle.doc_index`
      carries the fact, inserted in the middle of the filler's words. */
  predicate Built(d: Document, i: nat, domain: string, filler: string, config: DatasetConfig) {
    && d.id == i
    && d.domain == domain
    && d.hasNeedle == (i == config.needle.docIndex)
    && d.needleFact == (if d.hasNeedle then config.needle.fact else "")
    && d.text == (if d.hasNeedle then NeedleText(filler, config.needle.fact) else filler)
    && |Split(filler)| >= config.docLengthWords
  }

  /** `[random.choice(distractors) for _ in range(count)]`: IndexError when
      there is something to draw and nothing to draw from. */
  method ChooseDomains(distractors: seq<string>, count: int, rng: Random) returns (r: Result<seq<string>>)
    modifies rng
    ensures r.Err? <==> count > 0 && distractors == []
    ensures r.Err? ==> r.error == IndexError
    ensures r.Ok? ==> |r.value| == (if count < 0 then 0 else count)
    ensures r.Ok? ==> forall j :: 0 <= j < |r.value| ==> r.value[j] in distractors
  {
    var chosen: seq<string> := [];
    var k := 0;
    while k < count
      invariant 0 <= k && |chosen| == k
      invariant k <= count || k == 0
      invariant forall j :: 0 <= j < k ==> chosen[j] in distractors
      invariant k > 0 ==> distractors != []
    {
      var choice := rng.Choice(distractors);
      if choice.Err? {
        return Err(choice.error);
      }
      chosen := chosen + [choice.value];
      k := k + 1;
    }
    r := Ok(chosen);
  }

  /** One pass of the document loop: the filler text of `domain`, with the
      needle fact inserted when `i` is the needle's index. */
  method BuildDocument(i: nat, domain: string, config: DatasetConfig, rng: Random) returns (d: Document, ghost filler: string)
    modifies rng
    ensures Built(d, i, domain, filler, config)
  {
    var isNeedleDoc := i == config.needle.docIndex;
    var text;
    ghost var parts;
    text, parts := GenerateFillerText(domain, config.docLengthWords, rng);
    filler := text;
    var needleFact := "";
    if isNeedleDoc {
      needleFact := config.needle.fact;
      var words := Split(text);
      var insertPos := |words| / 2;
      text := Join(" ", words[..insertPos] + [needleFact] + words[insertPos..]);
    }
    d := Document(i, domain, text, isNeedleDoc, needleFact);
  }

  /** `generate_dataset(config)`: `total_docs` documents numbered in order;
      the one at slot `needle.doc_index` (counted from the end when
      negative) gets the target domain, every other one a distractor
      domain; only the document whose number equals `needle.doc_index`
      carries the needle.  `fillers` are the filler texts drawn for the
      documents.  A list of domains is drawn first and thrown away. */
  method GenerateDataset(config: DatasetConfig, rng: Random) returns (r: Result<seq<Document>>, ghost fillers: seq<string>)
    modifies rng
    ensures r.Err? <==> DatasetFails(config)
    ensures r.Err? ==> r.error == IndexError
    ensures r.Ok? ==> |r.value| == config.totalDocs == |fillers|
    ensures r.Ok? ==> forall i :: 0 <= i < |r.value| ==>
      && Built(r.value[i], i, r.value[i].domain, fillers[i], config)
      && (if i == TargetSlot(config) then r.value[i].domain == config.targetDomain
          else r.value[i].domain in config.distractorDomains)
    ensures r.Ok? && config.needle.docIndex < 0 ==>
      && r.value[TargetSlot(config)].domain == config.targetDomain
      && forall i :: 0 <= i < |r.value| ==> !r.value[i].hasNeedle
  {
    fillers := [];
    var total := config.totalDocs;
    var discarded := ChooseDomains(config.distractorDomains, total - 1, rng);
    if discarded.Err? {
      return Err(discarded.error), fillers;
    }
    var chosen := ChooseDomains(config.distractorDomains, total, rng);
    if chosen.Err? {
      return Err(chosen.error), fillers;
    }
    if total <= 0 || !InIndexRange(config.needle.docIndex, total) {
      return Err(IndexError), fillers;
    }
    var slot := TargetSlot(config);
    var finalDomains := chosen.value[slot := config.targetDomain];
    var documents: seq<Document> := [];
    var i := 0;
    while i < total
      invariant 0 <= i <= total
      invariant |documents| == |fillers| == i
      invariant forall j :: 0 <= j < i ==>
        && Built(documents[j], j, documents[j].domain, fillers[j], config)
        && (if j == slot then documents[j].domain == config.targetDomain
            else documents[j].domain in config.distractorDomains)
    {
      var d;
      ghost var filler;
      d, filler := BuildDocument(i, finalDomains[i], config, rng);
      documents := documents + [d];
      fillers := fillers + [filler];
      i := i + 1;
    }
    r := Ok(documents);
  }
}
