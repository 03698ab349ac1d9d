/**
 * The `WORD_DATA` literal of src/lib/wordData.ts: one constant per entry, in
 * source order, and the checks that every entry keeps the table invariants.
 */
module WordDataTable {
  import opened Text

  /**
   * `SyllableEntry`: the syllable axis (spellings and one sound cue each) and
   * the morpheme axis (spellings, one cue and one role each).
   */
  datatype SyllableEntry = SyllableEntry(
    syllables: seq<string>,
    soundCues: seq<string>,
    morphemes: seq<string>,
    morphCues: seq<string>,
    morphRoles: seq<string>)

  predicate IsRole(r: string) {
    r == "prefix" || r == "root" || r == "suffix"
  }

  /** The structural invariants: parallel lists agree in length, syllables spell the key, roles are known. */
  predicate WellFormed(key: string, e: SyllableEntry) {
    && IsLower(key)
    && |e.syllables| == |e.soundCues|
    && |e.morphemes| == |e.morphCues| == |e.morphRoles|
    && Join(e.syllables) == key
    && (forall i :: 0 <= i < |e.morphRoles| ==> IsRole(e.morphRoles[i]))
  }

  /** The two entries whose morphemes restore a letter the word drops or changes. */
  predicate IsMorphemeException(key: string) {
    key == "scientist" || key == "famous"
  }

  /** The morphemes spell the key exactly, unless (and only if) the key is an exception. */
  predicate Rejoins(key: string, e: SyllableEntry) {
    Join(e.morphemes) == key <==> !IsMorphemeException(key)
  }

  predicate Ok(key: string, e: SyllableEntry) {
    WellFormed(key, e) && Rejoins(key, e)
  }

  predicate AllOk(es: seq<(string, SyllableEntry)>) {
    forall i :: 0 <= i < |es| ==> Ok(es[i].0, es[i].1)
  }

  // Section "port root", src/lib/wordData.ts:25-66
  const Transport := SyllableEntry(["trans", "port"], ["/tranz/", "/port/"],
    ["trans", "port"], ["/tranz/", "/port/"], ["prefix", "root"])
  const Portable := SyllableEntry(["por", "ta", "ble"], ["/por/", "/tuh/", "/buhl/"],
    ["port", "able"], ["/port/", "/uh-buhl/"], ["root", "suffix"])
  const Import := SyllableEntry(["im", "port"], ["/im/", "/port/"],
    ["im", "port"], ["/im/", "/port/"], ["prefix", "root"])
  const Report := SyllableEntry(["re", "port"], ["/rih/", "/port/"],
    ["re", "port"], ["/rih/", "/port/"], ["prefix", "root"])
  const Export := SyllableEntry(["ex", "port"], ["/eks/", "/port/"],
    ["ex", "port"], ["/eks/", "/port/"], ["prefix", "root"])
  const Portfolio := SyllableEntry(["port", "fo", "li", "o"], ["/port/", "/foh/", "/lee/", "/oh/"],
    ["port", "folio"], ["/port/", "/foh-lee-oh/"], ["root", "root"])

  // Section "vis root", src/lib/wordData.ts:69-117
  const Visible := SyllableEntry(["vis", "i", "ble"], ["/viz/", "/ih/", "/buhl/"],
    ["vis", "ible"], ["/viz/", "/ih-buhl/"], ["root", "suffix"])
  const Invisible := SyllableEntry(["in", "vis", "i", "ble"], ["/in/", "/viz/", "/ih/", "/buhl/"],
    ["in", "vis", "ible"], ["/in/", "/viz/", "/ih-buhl/"], ["prefix", "root", "suffix"])
  const Revise := SyllableEntry(["re", "vise"], ["/rih/", "/vize/"],
    ["re", "vise"], ["/rih/", "/vize/"], ["prefix", "root"])
  const Supervise := SyllableEntry(["su", "per", "vise"], ["/soo/", "/per/", "/vize/"],
    ["super", "vise"], ["/soo-per/", "/vize/"], ["prefix", "root"])
  const Preview := SyllableEntry(["pre", "view"], ["/pree/", "/vyoo/"],
    ["pre", "view"], ["/pree/", "/vyoo/"], ["prefix", "root"])
  const Vision := SyllableEntry(["vi", "sion"], ["/vizh/", "/uhn/"],
    ["vis", "ion"], ["/viz/", "/yuhn/"], ["root", "suffix"])
  const Revision := SyllableEntry(["re", "vi", "sion"], ["/rih/", "/vizh/", "/uhn/"],
    ["re", "vis", "ion"], ["/rih/", "/viz/", "/yuhn/"], ["prefix", "root", "suffix"])

  // Section "rupt root", src/lib/wordData.ts:120-161
  const Interrupt := SyllableEntry(["in", "ter", "rupt"], ["/in/", "/ter/", "/rupt/"],
    ["inter", "rupt"], ["/in-ter/", "/rupt/"], ["prefix", "root"])
  const Erupt := SyllableEntry(["e", "rupt"], ["/ih/", "/rupt/"],
    ["e", "rupt"], ["/ih/", "/rupt/"], ["prefix", "root"])
  const Disrupt := SyllableEntry(["dis", "rupt"], ["/dis/", "/rupt/"],
    ["dis", "rupt"], ["/dis/", "/rupt/"], ["prefix", "root"])
  const Corrupt := SyllableEntry(["cor", "rupt"], ["/kor/", "/rupt/"],
    ["cor", "rupt"], ["/kor/", "/rupt/"], ["prefix", "root"])
  const Disruption := SyllableEntry(["dis", "rup", "tion"], ["/dis/", "/rup/", "/shun/"],
    ["dis", "rupt", "ion"], ["/dis/", "/rupt/", "/shun/"], ["prefix", "root", "suffix"])
  const Eruptive := SyllableEntry(["e", "rup", "tive"], ["/ih/", "/rup/", "/tiv/"],
    ["e", "rupt", "ive"], ["/ih/", "/rupt/", "/tiv/"], ["prefix", "root", "suffix"])

  // Section "scrib / script root", src/lib/wordData.ts:164-205
  const Describe := SyllableEntry(["de", "scribe"], ["/dih/", "/skribe/"],
    ["de", "scribe"], ["/dih/", "/skribe/"], ["prefix", "root"])
  const Prescription := SyllableEntry(["pre", "scrip", "tion"], ["/pree/", "/skrip/", "/shun/"],
    ["pre", "script", "ion"], ["/pree/", "/skript/", "/shun/"], ["prefix", "root", "suffix"])
  const Inscription := SyllableEntry(["in", "scrip", "tion"], ["/in/", "/skrip/", "/shun/"],
    ["in", "script", "ion"], ["/in/", "/skript/", "/shun/"], ["prefix", "root", "suffix"])
  const Manuscript := SyllableEntry(["man", "u", "script"], ["/man/", "/yoo/", "/skript/"],
    ["manu", "script"], ["/man-yoo/", "/skript/"], ["root", "root"])
  const Description := SyllableEntry(["de", "scrip", "tion"], ["/dih/", "/skrip/", "/shun/"],
    ["de", "script", "ion"], ["/dih/", "/skript/", "/shun/"], ["prefix", "root", "suffix"])
  const Subscription := SyllableEntry(["sub", "scrip", "tion"], ["/sub/", "/skrip/", "/shun/"],
    ["sub", "script", "ion"], ["/sub/", "/skript/", "/shun/"], ["prefix", "root", "suffix"])

  // Section "dict root", src/lib/wordData.ts:208-242
  const Predict := SyllableEntry(["pre", "dict"], ["/prih/", "/dikt/"],
    ["pre", "dict"], ["/prih/", "/dikt/"], ["prefix", "root"])
  const Contradiction := SyllableEntry(["con", "tra", "dic", "tion"], ["/kon/", "/truh/", "/dik/", "/shun/"],
    ["contra", "dict", "ion"], ["/kon-truh/", "/dikt/", "/shun/"], ["prefix", "root", "suffix"])
  const Dictate := SyllableEntry(["dic", "tate"], ["/dik/", "/tayt/"],
    ["dict", "ate"], ["/dikt/", "/ayt/"], ["root", "suffix"])
  const Prediction := SyllableEntry(["pre", "dic", "tion"], ["/prih/", "/dik/", "/shun/"],
    ["pre", "dict", "ion"], ["/prih/", "/dikt/", "/shun/"], ["prefix", "root", "suffix"])
  const Dictator := SyllableEntry(["dic", "ta", "tor"], ["/dik/", "/tay/", "/ter/"],
    ["dict", "ator"], ["/dikt/", "/ay-ter/"], ["root", "suffix"])

  // Section "struct root", src/lib/wordData.ts:245-293
  const Instruct := SyllableEntry(["in", "struct"], ["/in/", "/strukt/"],
    ["in", "struct"], ["/in/", "/strukt/"], ["prefix", "root"])
  const Construction := SyllableEntry(["con", "struc", "tion"], ["/kon/", "/struk/", "/shun/"],
    ["con", "struct", "ion"], ["/kon/", "/strukt/", "/shun/"], ["prefix", "root", "suffix"])
  const Destructive := SyllableEntry(["de", "struc", "tive"], ["/dih/", "/struk/", "/tiv/"],
    ["de", "struct", "ive"], ["/dih/", "/strukt/", "/tiv/"], ["prefix", "root", "suffix"])
  const Infrastructure := SyllableEntry(["in", "fra", "struc", "ture"], ["/in/", "/fruh/", "/struk/", "/cher/"],
    ["infra", "struct", "ure"], ["/in-fruh/", "/strukt/", "/cher/"], ["prefix", "root", "suffix"])
  const Instruction := SyllableEntry(["in", "struc", "tion"], ["/in/", "/struk/", "/shun/"],
    ["in", "struct", "ion"], ["/in/", "/strukt/", "/shun/"], ["prefix", "root", "suffix"])
  const Restructure := SyllableEntry(["re", "struc", "ture"], ["/rih/", "/struk/", "/cher/"],
    ["re", "struct", "ure"], ["/rih/", "/strukt/", "/cher/"], ["prefix", "root", "suffix"])
  const Structure := SyllableEntry(["struc", "ture"], ["/struk/", "/cher/"],
    ["struct", "ure"], ["/strukt/", "/cher/"], ["root", "suffix"])

  // Section "act root", src/lib/wordData.ts:296-351
  const Reaction := SyllableEntry(["re", "ac", "tion"], ["/rih/", "/ak/", "/shun/"],
    ["re", "act", "ion"], ["/rih/", "/akt/", "/shun/"], ["prefix", "root", "suffix"])
  const Interact := SyllableEntry(["in", "ter", "act"], ["/in/", "/ter/", "/akt/"],
    ["inter", "act"], ["/in-ter/", "/akt/"], ["prefix", "root"])
  const Inactive := SyllableEntry(["in", "ac", "tive"], ["/in/", "/ak/", "/tiv/"],
    ["in", "act", "ive"], ["/in/", "/akt/", "/tiv/"], ["prefix", "root", "suffix"])
  const Action := SyllableEntry(["ac", "tion"], ["/ak/", "/shun/"],
    ["act", "ion"], ["/akt/", "/shun/"], ["root", "suffix"])
  const Interaction := SyllableEntry(["in", "ter", "ac", "tion"], ["/in/", "/ter/", "/ak/", "/shun/"],
    ["inter", "act", "ion"], ["/in-ter/", "/akt/", "/shun/"], ["prefix", "root", "suffix"])
  const Actor := SyllableEntry(["ac", "tor"], ["/ak/", "/ter/"],
    ["act", "or"], ["/akt/", "/er/"], ["root", "suffix"])
  const Activist := SyllableEntry(["ac", "tiv", "ist"], ["/ak/", "/tiv/", "/ist/"],
    ["act", "iv", "ist"], ["/akt/", "/iv/", "/ist/"], ["root", "suffix", "suffix"])
  const Counteract := SyllableEntry(["coun", "ter", "act"], ["/kown/", "/ter/", "/akt/"],
    ["counter", "act"], ["/kown-ter/", "/akt/"], ["prefix", "root"])

  // Section "form root", src/lib/wordData.ts:354-388
  const Reform := SyllableEntry(["re", "form"], ["/rih/", "/form/"],
    ["re", "form"], ["/rih/", "/form/"], ["prefix", "root"])
  const Transform := SyllableEntry(["trans", "form"], ["/tranz/", "/form/"],
    ["trans", "form"], ["/tranz/", "/form/"], ["prefix", "root"])
  const Uniform := SyllableEntry(["u", "ni", "form"], ["/yoo/", "/nih/", "/form/"],
    ["uni", "form"], ["/yoo-nih/", "/form/"], ["prefix", "root"])
  const Transformation := SyllableEntry(["trans", "for", "ma", "tion"], ["/tranz/", "/for/", "/may/", "/shun/"],
    ["trans", "form", "ation"], ["/tranz/", "/form/", "/ay-shun/"], ["prefix", "root", "suffix"])
  const Formation := SyllableEntry(["for", "ma", "tion"], ["/for/", "/may/", "/shun/"],
    ["form", "ation"], ["/form/", "/ay-shun/"], ["root", "suffix"])

  // Section "mit / miss root", src/lib/wordData.ts:391-425
  const Submit := SyllableEntry(["sub", "mit"], ["/sub/", "/mit/"],
    ["sub", "mit"], ["/sub/", "/mit/"], ["prefix", "root"])
  const Transmit := SyllableEntry(["trans", "mit"], ["/tranz/", "/mit/"],
    ["trans", "mit"], ["/tranz/", "/mit/"], ["prefix", "root"])
  const Permission := SyllableEntry(["per", "mis", "sion"], ["/per/", "/mis/", "/shun/"],
    ["per", "miss", "ion"], ["/per/", "/mis/", "/shun/"], ["prefix", "root", "suffix"])
  const Mission := SyllableEntry(["mis", "sion"], ["/mish/", "/uhn/"],
    ["miss", "ion"], ["/mis/", "/shun/"], ["root", "suffix"])
  const Submission := SyllableEntry(["sub", "mis", "sion"], ["/sub/", "/mish/", "/uhn/"],
    ["sub", "miss", "ion"], ["/sub/", "/mis/", "/shun/"], ["prefix", "root", "suffix"])

  // Section "aud root", src/lib/wordData.ts:428-469
  const Audience := SyllableEntry(["au", "di", "ence"], ["/aw/", "/dee/", "/ents/"],
    ["aud", "ience"], ["/awd/", "/ee-ents/"], ["root", "suffix"])
  const Audible := SyllableEntry(["au", "di", "ble"], ["/aw/", "/dih/", "/buhl/"],
    ["aud", "ible"], ["/awd/", "/ih-buhl/"], ["root", "suffix"])
  const Auditorium := SyllableEntry(["au", "di", "to", "ri", "um"], ["/aw/", "/dih/", "/tor/", "/ee/", "/um/"],
    ["audi", "torium"], ["/aw-dih/", "/tor-ee-um/"], ["root", "suffix"])
  const Auditory := SyllableEntry(["au", "di", "to", "ry"], ["/aw/", "/dih/", "/tor/", "/ee/"],
    ["aud", "itory"], ["/awd/", "/ih-tor-ee/"], ["root", "suffix"])
  const Audition := SyllableEntry(["au", "di", "tion"], ["/aw/", "/dih/", "/shun/"],
    ["aud", "ition"], ["/awd/", "/ih-shun/"], ["root", "suffix"])
  const Inaudible := SyllableEntry(["in", "au", "di", "ble"], ["/in/", "/aw/", "/dih/", "/buhl/"],
    ["in", "aud", "ible"], ["/in/", "/awd/", "/ih-buhl/"], ["prefix", "root", "suffix"])

  // Section "spect / spec root", src/lib/wordData.ts:472-513
  const Inspect := SyllableEntry(["in", "spect"], ["/in/", "/spekt/"],
    ["in", "spect"], ["/in/", "/spekt/"], ["prefix", "root"])
  const Spectator := SyllableEntry(["spec", "ta", "tor"], ["/spek/", "/tay/", "/ter/"],
    ["spect", "ator"], ["/spekt/", "/ay-ter/"], ["root", "suffix"])
  const Perspective := SyllableEntry(["per", "spec", "tive"], ["/per/", "/spek/", "/tiv/"],
    ["per", "spec", "tive"], ["/per/", "/spek/", "/tiv/"], ["prefix", "root", "suffix"])
  const Speculate := SyllableEntry(["spec", "u", "late"], ["/spek/", "/yuh/", "/layt/"],
    ["spec", "ulate"], ["/spek/", "/yuh-layt/"], ["root", "suffix"])
  const Spectacle := SyllableEntry(["spec", "ta", "cle"], ["/spek/", "/tuh/", "/kul/"],
    ["spect", "acle"], ["/spekt/", "/uh-kul/"], ["root", "suffix"])
  const Inspector := SyllableEntry(["in", "spec", "tor"], ["/in/", "/spek/", "/ter/"],
    ["in", "spect", "or"], ["/in/", "/spekt/", "/er/"], ["prefix", "root", "suffix"])

  // Section "fer root", src/lib/wordData.ts:516-550
  const Transfer := SyllableEntry(["trans", "fer"], ["/tranz/", "/fer/"],
    ["trans", "fer"], ["/tranz/", "/fer/"], ["prefix", "root"])
  const Prefer := SyllableEntry(["pre", "fer"], ["/prih/", "/fer/"],
    ["pre", "fer"], ["/prih/", "/fer/"], ["prefix", "root"])
  const Refer := SyllableEntry(["re", "fer"], ["/rih/", "/fer/"],
    ["re", "fer"], ["/rih/", "/fer/"], ["prefix", "root"])
  const Conference := SyllableEntry(["con", "fer", "ence"], ["/kon/", "/fer/", "/ents/"],
    ["con", "fer", "ence"], ["/kon/", "/fer/", "/ents/"], ["prefix", "root", "suffix"])
  const Interference := SyllableEntry(["in", "ter", "fer", "ence"], ["/in/", "/ter/", "/fer/", "/ents/"],
    ["inter", "fer", "ence"], ["/in-ter/", "/fer/", "/ents/"], ["prefix", "root", "suffix"])

  // Section "un- / dis- / re- / mis- prefix words", src/lib/wordData.ts:553-643
  const Rewrite := SyllableEntry(["re", "write"], ["/rih/", "/rite/"],
    ["re", "write"], ["/rih/", "/rite/"], ["prefix", "root"])
  const Unclear := SyllableEntry(["un", "clear"], ["/un/", "/kleer/"],
    ["un", "clear"], ["/un/", "/kleer/"], ["prefix", "root"])
  const Unfinished := SyllableEntry(["un", "fin", "ished"], ["/un/", "/fin/", "/isht/"],
    ["un", "finished"], ["/un/", "/fin-isht/"], ["prefix", "root"])
  const Disagree := SyllableEntry(["dis", "a", "gree"], ["/dis/", "/uh/", "/gree/"],
    ["dis", "agree"], ["/dis/", "/uh-gree/"], ["prefix", "root"])
  const Disconnect := SyllableEntry(["dis", "con", "nect"], ["/dis/", "/kon/", "/nekt/"],
    ["dis", "connect"], ["/dis/", "/kuh-nekt/"], ["prefix", "root"])
  const Submarine := SyllableEntry(["sub", "ma", "rine"], ["/sub/", "/muh/", "/reen/"],
    ["sub", "marine"], ["/sub/", "/muh-reen/"], ["prefix", "root"])
  const Subtract := SyllableEntry(["sub", "tract"], ["/sub/", "/trakt/"],
    ["sub", "tract"], ["/sub/", "/trakt/"], ["prefix", "root"])
  const Interstate := SyllableEntry(["in", "ter", "state"], ["/in/", "/ter/", "/stayt/"],
    ["inter", "state"], ["/in-ter/", "/stayt/"], ["prefix", "root"])
  const Impossible := SyllableEntry(["im", "pos", "si", "ble"], ["/im/", "/pos/", "/sih/", "/buhl/"],
    ["im", "possible"], ["/im/", "/pos-ih-buhl/"], ["prefix", "root"])
  const Incomplete := SyllableEntry(["in", "com", "plete"], ["/in/", "/kum/", "/pleet/"],
    ["in", "complete"], ["/in/", "/kum-pleet/"], ["prefix", "root"])
  const Misspell := SyllableEntry(["mis", "spell"], ["/mis/", "/spel/"],
    ["mis", "spell"], ["/mis/", "/spel/"], ["prefix", "root"])
  const Misunderstand := SyllableEntry(["mis", "un", "der", "stand"], ["/mis/", "/un/", "/der/", "/stand/"],
    ["mis", "understand"], ["/mis/", "/un-der-stand/"], ["prefix", "root"])
  const Misconduct := SyllableEntry(["mis", "con", "duct"], ["/mis/", "/kon/", "/dukt/"],
    ["mis", "conduct"], ["/mis/", "/kon-dukt/"], ["prefix", "root"])

  // Section "Suffix words", src/lib/wordData.ts:646-806
  const Movement := SyllableEntry(["move", "ment"], ["/moov/", "/ment/"],
    ["move", "ment"], ["/moov/", "/ment/"], ["root", "suffix"])
  const Agreement := SyllableEntry(["a", "gree", "ment"], ["/uh/", "/gree/", "/ment/"],
    ["agree", "ment"], ["/uh-gree/", "/ment/"], ["root", "suffix"])
  const Statement := SyllableEntry(["state", "ment"], ["/stayt/", "/ment/"],
    ["state", "ment"], ["/stayt/", "/ment/"], ["root", "suffix"])
  const Kindness := SyllableEntry(["kind", "ness"], ["/kind/", "/ness/"],
    ["kind", "ness"], ["/kind/", "/ness/"], ["root", "suffix"])
  const Darkness := SyllableEntry(["dark", "ness"], ["/dark/", "/ness/"],
    ["dark", "ness"], ["/dark/", "/ness/"], ["root", "suffix"])
  const Awareness := SyllableEntry(["a", "ware", "ness"], ["/uh/", "/wair/", "/ness/"],
    ["aware", "ness"], ["/uh-wair/", "/ness/"], ["root", "suffix"])
  const Helpful := SyllableEntry(["help", "ful"], ["/help/", "/ful/"],
    ["help", "ful"], ["/help/", "/ful/"], ["root", "suffix"])
  const Powerful := SyllableEntry(["pow", "er", "ful"], ["/pow/", "/er/", "/ful/"],
    ["power", "ful"], ["/pow-er/", "/ful/"], ["root", "suffix"])
  const Meaningful := SyllableEntry(["mean", "ing", "ful"], ["/meen/", "/ing/", "/ful/"],
    ["meaning", "ful"], ["/meen-ing/", "/ful/"], ["root", "suffix"])
  const Homeless := SyllableEntry(["home", "less"], ["/hohm/", "/les/"],
    ["home", "less"], ["/hohm/", "/les/"], ["root", "suffix"])
  const Careless := SyllableEntry(["care", "less"], ["/kair/", "/les/"],
    ["care", "less"], ["/kair/", "/les/"], ["root", "suffix"])
  const Powerless := SyllableEntry(["pow", "er", "less"], ["/pow/", "/er/", "/les/"],
    ["power", "less"], ["/pow-er/", "/les/"], ["root", "suffix"])
  const Readable := SyllableEntry(["read", "a", "ble"], ["/reed/", "/uh/", "/buhl/"],
    ["read", "able"], ["/reed/", "/uh-buhl/"], ["root", "suffix"])
  const Comfortable := SyllableEntry(["com", "fort", "a", "ble"], ["/kum/", "/fert/", "/uh/", "/buhl/"],
    ["comfort", "able"], ["/kum-fert/", "/uh-buhl/"], ["root", "suffix"])
  const Remarkable := SyllableEntry(["re", "mark", "a", "ble"], ["/rih/", "/mark/", "/uh/", "/buhl/"],
    ["re", "mark", "able"], ["/rih/", "/mark/", "/uh-buhl/"], ["prefix", "root", "suffix"])
  const Teacher := SyllableEntry(["teach", "er"], ["/teech/", "/er/"],
    ["teach", "er"], ["/teech/", "/er/"], ["root", "suffix"])
  const Quickly := SyllableEntry(["quick", "ly"], ["/kwik/", "/lee/"],
    ["quick", "ly"], ["/kwik/", "/lee/"], ["root", "suffix"])
  const Clearly := SyllableEntry(["clear", "ly"], ["/kleer/", "/lee/"],
    ["clear", "ly"], ["/kleer/", "/lee/"], ["root", "suffix"])
  const Accurately := SyllableEntry(["ac", "cu", "rate", "ly"], ["/ak/", "/kyuh/", "/rit/", "/lee/"],
    ["accurate", "ly"], ["/ak-kyuh-rit/", "/lee/"], ["root", "suffix"])
  const Scientist := SyllableEntry(["sci", "en", "tist"], ["/sie/", "/en/", "/tist/"],
    ["science", "ist"], ["/sie-ents/", "/ist/"], ["root", "suffix"])
  const Dangerous := SyllableEntry(["dan", "ger", "ous"], ["/dayn/", "/jer/", "/us/"],
    ["danger", "ous"], ["/dayn-jer/", "/us/"], ["root", "suffix"])
  const Famous := SyllableEntry(["fa", "mous"], ["/fay/", "/mus/"],
    ["fame", "ous"], ["/faym/", "/us/"], ["root", "suffix"])
  const Courageous := SyllableEntry(["cou", "ra", "geous"], ["/kuh/", "/ray/", "/jus/"],
    ["courage", "ous"], ["/ker-ij/", "/us/"], ["root", "suffix"])

  // Section "Other prefix words", src/lib/wordData.ts:809-850
  const Nonfiction := SyllableEntry(["non", "fic", "tion"], ["/non/", "/fik/", "/shun/"],
    ["non", "fiction"], ["/non/", "/fik-shun/"], ["prefix", "root"])
  const Semifinal := SyllableEntry(["sem", "i", "fi", "nal"], ["/sem/", "/ee/", "/fie/", "/nul/"],
    ["semi", "final"], ["/sem-ee/", "/fie-nul/"], ["prefix", "root"])
  const Multicultural := SyllableEntry(["mul", "ti", "cul", "tur", "al"], ["/mul/", "/tih/", "/kul/", "/cher/", "/ul/"],
    ["multi", "cultural"], ["/mul-tih/", "/kul-cher-ul/"], ["prefix", "root"])
  const Bilingual := SyllableEntry(["bi", "lin", "gual"], ["/bie/", "/ling/", "/gwul/"],
    ["bi", "lingual"], ["/bie/", "/ling-gwul/"], ["prefix", "root"])
  const Postwar := SyllableEntry(["post", "war"], ["/pohst/", "/wor/"],
    ["post", "war"], ["/pohst/", "/wor/"], ["prefix", "root"])
  const Context := SyllableEntry(["con", "text"], ["/kon/", "/tekst/"],
    ["con", "text"], ["/kon/", "/tekst/"], ["prefix", "root"])

  const PortRoot: seq<(string, SyllableEntry)> := [
    ("transport", Transport),
    ("portable", Portable),
    ("import", Import),
    ("report", Report),
    ("export", Export),
    ("portfolio", Portfolio)]

  const VisRoot: seq<(string, SyllableEntry)> := [
    ("visible", Visible),
    ("invisible", Invisible),
    ("revise", Revise),
    ("supervise", Supervise),
    ("preview", Preview),
    ("vision", Vision),
    ("revision", Revision)]

  const RuptRoot: seq<(string, SyllableEntry)> := [
    ("interrupt", Interrupt),
    ("erupt", Erupt),
    ("disrupt", Disrupt),
    ("corrupt", Corrupt),
    ("disruption", Disruption),
    ("eruptive", Eruptive)]

  const ScribRoot: seq<(string, SyllableEntry)> := [
    ("describe", Describe),
    ("prescription", Prescription),
    ("inscription", Inscription),
    ("manuscript", Manuscript),
    ("description", Description),
    ("subscription", Subscription)]

  const DictRoot: seq<(string, SyllableEntry)> := [
    ("predict", Predict),
    ("contradiction", Contradiction),
    ("dictate", Dictate),
    ("prediction", Prediction),
    ("dictator", Dictator)]

  const StructRoot: seq<(string, SyllableEntry)> := [
    ("instruct", Instruct),
    ("construction", Construction),
    ("destructive", Destructive),
    ("infrastructure", Infrastructure),
    ("instruction", Instruction),
    ("restructure", Restructure),
    ("structure", Structure)]

  const ActRoot: seq<(string, SyllableEntry)> := [
    ("reaction", Reaction),
    ("interact", Interact),
    ("inactive", Inactive),
    ("action", Action),
    ("interaction", Interaction),
    ("actor", Actor),
    ("activist", Activist),
    ("counteract", Counteract)]

  const FormRoot: seq<(string, SyllableEntry)> := [
    ("reform", Reform),
    ("transform", Transform),
    ("uniform", Uniform),
    ("transformation", Transformation),
    ("formation", Formation)]

  const MitRoot: seq<(string, SyllableEntry)> := [
    ("submit", Submit),
    ("transmit", Transmit),
    ("permission", Permission),
    ("mission", Mission),
    ("submission", Submission)]

  const AudRoot: seq<(string, SyllableEntry)> := [
    ("audience", Audience),
    ("audible", Audible),
    ("auditorium", Auditorium),
    ("auditory", Auditory),
    ("audition", Audition),
    ("inaudible", Inaudible)]

  const SpectRoot: seq<(string, SyllableEntry)> := [
    ("inspect", Inspect),
    ("spectator", Spectator),
    ("perspective", Perspective),
    ("speculate", Speculate),
    ("spectacle", Spectacle),
    ("inspector", Inspector)]

  const FerRoot: seq<(string, SyllableEntry)> := [
    ("transfer", Transfer),
    ("prefer", Prefer),
    ("refer", Refer),
    ("conference", Conference),
    ("interference", Interference)]

  const PrefixWordsA: seq<(string, SyllableEntry)> := [
    ("rewrite", Rewrite),
    ("unclear", Unclear),
    ("unfinished", Unfinished),
    ("disagree", Disagree),
    ("disconnect", Disconnect),
    ("submarine", Submarine),
    ("subtract", Subtract),
    ("interstate", Interstate)]

  const PrefixWordsB: seq<(string, SyllableEntry)> := [
    ("impossible", Impossible),
    ("incomplete", Incomplete),
    ("misspell", Misspell),
    ("misunderstand", Misunderstand),
    ("misconduct", Misconduct)]

  const SuffixWordsA: seq<(string, SyllableEntry)> := [
    ("movement", Movement),
    ("agreement", Agreement),
    ("statement", Statement),
    ("kindness", Kindness),
    ("darkness", Darkness),
    ("awareness", Awareness),
    ("helpful", Helpful),
    ("powerful", Powerful)]

  const SuffixWordsB: seq<(string, SyllableEntry)> := [
    ("meaningful", Meaningful),
    ("homeless", Homeless),
    ("careless", Careless),
    ("powerless", Powerless),
    ("readable", Readable),
    ("comfortable", Comfortable),
    ("remarkable", Remarkable),
    ("teacher", Teacher)]

  const SuffixWordsC: seq<(string, SyllableEntry)> := [
    ("quickly", Quickly),
    ("clearly", Clearly),
    ("accurately", Accurately),
    ("scientist", Scientist),
    ("dangerous", Dangerous),
    ("famous", Famous),
    ("courageous", Courageous)]

  const OtherPrefixWords: seq<(string, SyllableEntry)> := [
    ("nonfiction", Nonfiction),
    ("semifinal", Semifinal),
    ("multicultural", Multicultural),
    ("bilingual", Bilingual),
    ("postwar", Postwar),
    ("context", Context)]

  /** `WORD_DATA`, section by section in source order. */
  const WordTable: seq<(string, SyllableEntry)> :=
    PortRoot + VisRoot + RuptRoot + ScribRoot
    + DictRoot + StructRoot + ActRoot + FormRoot
    + MitRoot + AudRoot + SpectRoot + FerRoot
    + PrefixWordsA + PrefixWordsB + SuffixWordsA + SuffixWordsB
    + SuffixWordsC + OtherPrefixWords

  // One check per entry keeps each proof obligation small.

  lemma TransportOk()
    ensures Ok("transport", Transport)
  {
  }

  lemma PortableOk()
    ensures Ok("portable", Portable)
  {
  }

  lemma ImportOk()
    ensures Ok("import", Import)
  {
  }

  lemma ReportOk()
    ensures Ok("report", Report)
  {
  }

  lemma ExportOk()
    ensures Ok("export", Export)
  {
  }

  lemma PortfolioOk()
    ensures Ok("portfolio", Portfolio)
  {
  }

  lemma {:induction false} PortRootOk()
    ensures AllOk(PortRoot)
  {
    TransportOk();
    PortableOk();
    ImportOk();
    ReportOk();
    ExportOk();
    PortfolioOk();
  }

  lemma VisibleOk()
    ensures Ok("visible", Visible)
  {
  }

  lemma InvisibleOk()
    ensures Ok("invisible", Invisible)
  {
  }

  lemma ReviseOk()
    ensures Ok("revise", Revise)
  {
  }

  lemma SuperviseOk()
    ensures Ok("supervise", Supervise)
  {
  }

  lemma PreviewOk()
    ensures Ok("preview", Preview)
  {
  }

  lemma VisionOk()
    ensures Ok("vision", Vision)
  {
  }

  lemma RevisionOk()
    ensures Ok("revision", Revision)
  {
  }

  lemma {:induction false} VisRootOk()
    ensures AllOk(VisRoot)
  {
    VisibleOk();
    InvisibleOk();
    ReviseOk();
    SuperviseOk();
    PreviewOk();
    VisionOk();
    RevisionOk();
  }

  lemma InterruptOk()
    ensures Ok("interrupt", Interrupt)
  {
  }

  lemma EruptOk()
    ensures Ok("erupt", Erupt)
  {
  }

  lemma DisruptOk()
    ensures Ok("disrupt", Disrupt)
  {
  }

  lemma CorruptOk()
    ensures Ok("corrupt", Corrupt)
  {
  }

  lemma DisruptionOk()
    ensures Ok("disruption", Disruption)
  {
  }

  lemma EruptiveOk()
    ensures Ok("eruptive", Eruptive)
  {
  }

  lemma {:induction false} RuptRootOk()
    ensures AllOk(RuptRoot)
  {
    InterruptOk();
    EruptOk();
    DisruptOk();
    CorruptOk();
    DisruptionOk();
    EruptiveOk();
  }

  lemma DescribeOk()
    ensures Ok("describe", Describe)
  {
  }

  lemma PrescriptionOk()
    ensures Ok("prescription", Prescription)
  {
  }

  lemma InscriptionOk()
    ensures Ok("inscription", Inscription)
  {
  }

  lemma ManuscriptOk()
    ensures Ok("manuscript", Manuscript)
  {
  }

  lemma DescriptionOk()
    ensures Ok("description", Description)
  {
  }

  lemma SubscriptionOk()
    ensures Ok("subscription", Subscription)
  {
  }

  lemma {:induction false} ScribRootOk()
    ensures AllOk(ScribRoot)
  {
    DescribeOk();
    PrescriptionOk();
    InscriptionOk();
    ManuscriptOk();
    DescriptionOk();
    SubscriptionOk();
  }

  lemma PredictOk()
    ensures Ok("predict", Predict)
  {
  }

  lemma ContradictionOk()
    ensures Ok("contradiction", Contradiction)
  {
  }

  lemma DictateOk()
    ensures Ok("dictate", Dictate)
  {
  }

  lemma PredictionOk()
    ensures Ok("prediction", Prediction)
  {
  }

  lemma DictatorOk()
    ensures Ok("dictator", Dictator)
  {
  }

  lemma {:induction false} DictRootOk()
    ensures AllOk(DictRoot)
  {
    PredictOk();
    ContradictionOk();
    DictateOk();
    PredictionOk();
    DictatorOk();
  }

  lemma InstructOk()
    ensures Ok("instruct", Instruct)
  {
  }

  lemma ConstructionOk()
    ensures Ok("construction", Construction)
  {
  }

  lemma DestructiveOk()
    ensures Ok("destructive", Destructive)
  {
  }

  lemma InfrastructureOk()
    ensures Ok("infrastructure", Infrastructure)
  {
  }

  lemma InstructionOk()
    ensures Ok("instruction", Instruction)
  {
  }

  lemma RestructureOk()
    ensures Ok("restructure", Restructure)
  {
  }

  lemma StructureOk()
    ensures Ok("structure", Structure)
  {
  }

  lemma {:induction false} StructRootOk()
    ensures AllOk(StructRoot)
  {
    InstructOk();
    ConstructionOk();
    DestructiveOk();
    InfrastructureOk();
    InstructionOk();
    RestructureOk();
    StructureOk();
  }

  lemma ReactionOk()
    ensures Ok("reaction", Reaction)
  {
  }

  lemma InteractOk()
    ensures Ok("interact", Interact)
  {
  }

  lemma InactiveOk()
    ensures Ok("inactive", Inactive)
  {
  }

  lemma ActionOk()
    ensures Ok("action", Action)
  {
  }

  lemma InteractionOk()
    ensures Ok("interaction", Interaction)
  {
  }

  lemma ActorOk()
    ensures Ok("actor", Actor)
  {
  }

  lemma ActivistOk()
    ensures Ok("activist", Activist)
  {
  }

  lemma CounteractOk()
    ensures Ok("counteract", Counteract)
  {
  }

  lemma {:induction false} ActRootOk()
    ensures AllOk(ActRoot)
  {
    ReactionOk();
    InteractOk();
    InactiveOk();
    ActionOk();
    InteractionOk();
    ActorOk();
    ActivistOk();
    CounteractOk();
  }

  lemma ReformOk()
    ensures Ok("reform", Reform)
  {
  }

  lemma TransformOk()
    ensures Ok("transform", Transform)
  {
  }

  lemma UniformOk()
    ensures Ok("uniform", Uniform)
  {
  }

  lemma TransformationOk()
    ensures Ok("transformation", Transformation)
  {
  }

  lemma FormationOk()
    ensures Ok("formation", Formation)
  {
  }

  lemma {:induction false} FormRootOk()
    ensures AllOk(FormRoot)
  {
    ReformOk();
    TransformOk();
    UniformOk();
    TransformationOk();
    FormationOk();
  }

  lemma SubmitOk()
    ensures Ok("submit", Submit)
  {
  }

  lemma TransmitOk()
    ensures Ok("transmit", Transmit)
  {
  }

  lemma PermissionOk()
    ensures Ok("permission", Permission)
  {
  }

  lemma MissionOk()
    ensures Ok("mission", Mission)
  {
  }

  lemma SubmissionOk()
    ensures Ok("submission", Submission)
  {
  }

  lemma {:induction false} MitRootOk()
    ensures AllOk(MitRoot)
  {
    SubmitOk();
    TransmitOk();
    PermissionOk();
    MissionOk();
    SubmissionOk();
  }

  lemma AudienceOk()
    ensures Ok("audience", Audience)
  {
  }

  lemma AudibleOk()
    ensures Ok("audible", Audible)
  {
  }

  lemma AuditoriumOk()
    ensures Ok("auditorium", Auditorium)
  {
  }

  lemma AuditoryOk()
    ensures Ok("auditory", Auditory)
  {
  }

  lemma AuditionOk()
    ensures Ok("audition", Audition)
  {
  }

  lemma InaudibleOk()
    ensures Ok("inaudible", Inaudible)
  {
  }

  lemma {:induction false} AudRootOk()
    ensures AllOk(AudRoot)
  {
    AudienceOk();
    AudibleOk();
    AuditoriumOk();
    AuditoryOk();
    AuditionOk();
    InaudibleOk();
  }

  lemma InspectOk()
    ensures Ok("inspect", Inspect)
  {
  }

  lemma SpectatorOk()
    ensures Ok("spectator", Spectator)
  {
  }

  lemma PerspectiveOk()
    ensures Ok("perspective", Perspective)
  {
  }

  lemma SpeculateOk()
    ensures Ok("speculate", Speculate)
  {
  }

  lemma SpectacleOk()
    ensures Ok("spectacle", Spectacle)
  {
  }

  lemma InspectorOk()
    ensures Ok("inspector", Inspector)
  {
  }

  lemma {:induction false} SpectRootOk()
    ensures AllOk(SpectRoot)
  {
    InspectOk();
    SpectatorOk();
    PerspectiveOk();
    SpeculateOk();
    SpectacleOk();
    InspectorOk();
  }

  lemma TransferOk()
    ensures Ok("transfer", Transfer)
  {
  }

  lemma PreferOk()
    ensures Ok("prefer", Prefer)
  {
  }

  lemma ReferOk()
    ensures Ok("refer", Refer)
  {
  }

  lemma ConferenceOk()
    ensures Ok("conference", Conference)
  {
  }

  lemma InterferenceOk()
    ensures Ok("interference", Interference)
  {
  }

  lemma {:induction false} FerRootOk()
    ensures AllOk(FerRoot)
  {
    TransferOk();
    PreferOk();
    ReferOk();
    ConferenceOk();
    InterferenceOk();
  }

  lemma RewriteOk()
    ensures Ok("rewrite", Rewrite)
  {
  }

  lemma UnclearOk()
    ensures Ok("unclear", Unclear)
  {
  }

  lemma UnfinishedOk()
    ensures Ok("unfinished", Unfinished)
  {
  }

  lemma DisagreeOk()
    ensures Ok("disagree", Disagree)
  {
  }

  lemma DisconnectOk()
    ensures Ok("disconnect", Disconnect)
  {
  }

  lemma SubmarineOk()
    ensures Ok("submarine", Submarine)
  {
  }

  lemma SubtractOk()
    ensures Ok("subtract", Subtract)
  {
  }

  lemma InterstateOk()
    ensures Ok("interstate", Interstate)
  {
  }

  lemma {:induction false} PrefixWordsAOk()
    ensures AllOk(PrefixWordsA)
  {
    RewriteOk();
    UnclearOk();
    UnfinishedOk();
    DisagreeOk();
    DisconnectOk();
    SubmarineOk();
    SubtractOk();
    InterstateOk();
  }

  lemma ImpossibleOk()
    ensures Ok("impossible", Impossible)
  {
  }

  lemma IncompleteOk()
    ensures Ok("incomplete", Incomplete)
  {
  }

  lemma MisspellOk()
    ensures Ok("misspell", Misspell)
  {
  }

  lemma MisunderstandOk()
    ensures Ok("misunderstand", Misunderstand)
  {
  }

  lemma MisconductOk()
    ensures Ok("misconduct", Misconduct)
  {
  }

  lemma {:induction false} PrefixWordsBOk()
    ensures AllOk(PrefixWordsB)
  {
    ImpossibleOk();
    IncompleteOk();
    MisspellOk();
    MisunderstandOk();
    MisconductOk();
  }

  lemma MovementOk()
    ensures Ok("movement", Movement)
  {
  }

  lemma AgreementOk()
    ensures Ok("agreement", Agreement)
  {
  }

  lemma StatementOk()
    ensures Ok("statement", Statement)
  {
  }

  lemma KindnessOk()
    ensures Ok("kindness", Kindness)
  {
  }

  lemma DarknessOk()
    ensures Ok("darkness", Darkness)
  {
  }

  lemma AwarenessOk()
    ensures Ok("awareness", Awareness)
  {
  }

  lemma HelpfulOk()
    ensures Ok("helpful", Helpful)
  {
  }

  lemma PowerfulOk()
    ensures Ok("powerful", Powerful)
  {
  }

  lemma {:induction false} SuffixWordsAOk()
    ensures AllOk(SuffixWordsA)
  {
    MovementOk();
    AgreementOk();
    StatementOk();
    KindnessOk();
    DarknessOk();
    AwarenessOk();
    HelpfulOk();
    PowerfulOk();
  }

  lemma MeaningfulOk()
    ensures Ok("meaningful", Meaningful)
  {
  }

  lemma HomelessOk()
    ensures Ok("homeless", Homeless)
  {
  }

  lemma CarelessOk()
    ensures Ok("careless", Careless)
  {
  }

  lemma PowerlessOk()
    ensures Ok("powerless", Powerless)
  {
  }

  lemma ReadableOk()
    ensures Ok("readable", Readable)
  {
  }

  lemma ComfortableOk()
    ensures Ok("comfortable", Comfortable)
  {
  }

  lemma RemarkableOk()
    ensures Ok("remarkable", Remarkable)
  {
  }

  lemma TeacherOk()
    ensures Ok("teacher", Teacher)
  {
  }

  lemma {:induction false} SuffixWordsBOk()
    ensures AllOk(SuffixWordsB)
  {
    MeaningfulOk();
    HomelessOk();
    CarelessOk();
    PowerlessOk();
    ReadableOk();
    ComfortableOk();
    RemarkableOk();
    TeacherOk();
  }

  lemma QuicklyOk()
    ensures Ok("quickly", Quickly)
  {
  }

  lemma ClearlyOk()
    ensures Ok("clearly", Clearly)
  {
  }

  lemma AccuratelyOk()
    ensures Ok("accurately", Accurately)
  {
  }

  lemma ScientistOk()
    ensures Ok("scientist", Scientist)
  {
  }

  lemma DangerousOk()
    ensures Ok("dangerous", Dangerous)
  {
  }

  lemma FamousOk()
    ensures Ok("famous", Famous)
  {
  }

  lemma CourageousOk()
    ensures Ok("courageous", Courageous)
  {
  }

  lemma {:induction false} SuffixWordsCOk()
    ensures AllOk(SuffixWordsC)
  {
    QuicklyOk();
    ClearlyOk();
    AccuratelyOk();
    ScientistOk();
    DangerousOk();
    FamousOk();
    CourageousOk();
  }

  lemma NonfictionOk()
    ensures Ok("nonfiction", Nonfiction)
  {
  }

  lemma SemifinalOk()
    ensures Ok("semifinal", Semifinal)
  {
  }

  lemma MulticulturalOk()
    ensures Ok("multicultural", Multicultural)
  {
  }

  lemma BilingualOk()
    ensures Ok("bilingual", Bilingual)
  {
  }

  lemma PostwarOk()
    ensures Ok("postwar", Postwar)
  {
  }

  lemma ContextOk()
    ensures Ok("context", Context)
  {
  }

  lemma {:induction false} OtherPrefixWordsOk()
    ensures AllOk(OtherPrefixWords)
  {
    NonfictionOk();
    SemifinalOk();
    MulticulturalOk();
    BilingualOk();
    PostwarOk();
    ContextOk();
  }
  lemma AllOkAppend(a: seq<(string, SyllableEntry)>, b: seq<(string, SyllableEntry)>)
    requires AllOk(a) && AllOk(b)
    ensures AllOk(a + b)
  {
    forall i | 0 <= i < |a + b|
      ensures Ok((a + b)[i].0, (a + b)[i].1)
    {
      if i >= |a| {
        assert (a + b)[i] == b[i - |a|];
      }
    }
  }

  /** Every entry of the table keeps the invariants. */
  lemma {:induction false} TableInvariants()
    ensures AllOk(WordTable)
  {
    PortRootOk();
    VisRootOk();
    RuptRootOk();
    ScribRootOk();
    DictRootOk();
    StructRootOk();
    ActRootOk();
    FormRootOk();
    MitRootOk();
    AudRootOk();
    SpectRootOk();
    FerRootOk();
    PrefixWordsAOk();
    PrefixWordsBOk();
    SuffixWordsAOk();
    SuffixWordsBOk();
    SuffixWordsCOk();
    OtherPrefixWordsOk();
    AllOkAppend(PortRoot, VisRoot);
    AllOkAppend(PortRoot + VisRoot, RuptRoot);
    AllOkAppend(PortRoot + VisRoot + RuptRoot, ScribRoot);
    AllOkAppend(PortRoot + VisRoot + RuptRoot + ScribRoot, DictRoot);
    AllOkAppend(PortRoot + VisRoot + RuptRoot + ScribRoot + DictRoot, StructRoot);
    AllOkAppend(PortRoot + VisRoot + RuptRoot + ScribRoot + DictRoot + StructRoot, ActRoot);
    AllOkAppend(PortRoot + VisRoot + RuptRoot + ScribRoot + DictRoot + StructRoot + ActRoot, FormRoot);
    AllOkAppend(PortRoot + VisRoot + RuptRoot + ScribRoot + DictRoot + StructRoot + ActRoot + FormRoot, MitRoot);
    AllOkAppend(PortRoot + VisRoot + RuptRoot + ScribRoot + DictRoot + StructRoot + ActRoot + FormRoot + MitRoot, AudRoot);
    AllOkAppend(PortRoot + VisRoot + RuptRoot + ScribRoot + DictRoot + StructRoot + ActRoot + FormRoot + MitRoot + AudRoot, SpectRoot);
    AllOkAppend(PortRoot + VisRoot + RuptRoot + ScribRoot + DictRoot + StructRoot + ActRoot + FormRoot + MitRoot + AudRoot + SpectRoot, FerRoot);
    AllOkAppend(PortRoot + VisRoot + RuptRoot + ScribRoot + DictRoot + StructRoot + ActRoot + FormRoot + MitRoot + AudRoot + SpectRoot + FerRoot, PrefixWordsA);
    AllOkAppend(PortRoot + VisRoot + RuptRoot + ScribRoot + DictRoot + StructRoot + ActRoot + FormRoot + MitRoot + AudRoot + SpectRoot + FerRoot + PrefixWordsA, PrefixWordsB);
    AllOkAppend(PortRoot + VisRoot + RuptRoot + ScribRoot + DictRoot + StructRoot + ActRoot + FormRoot + MitRoot + AudRoot + SpectRoot + FerRoot + PrefixWordsA + PrefixWordsB, SuffixWordsA);
    AllOkAppend(PortRoot + VisRoot + RuptRoot + ScribRoot + DictRoot + StructRoot + ActRoot + FormRoot + MitRoot + AudRoot + SpectRoot + FerRoot + PrefixWordsA + PrefixWordsB + SuffixWordsA, SuffixWordsB);
    AllOkAppend(PortRoot + VisRoot + RuptRoot + ScribRoot + DictRoot + StructRoot + ActRoot + FormRoot + MitRoot + AudRoot + SpectRoot + FerRoot + PrefixWordsA + PrefixWordsB + SuffixWordsA + SuffixWordsB, SuffixWordsC);
    AllOkAppend(PortRoot + VisRoot + RuptRoot + ScribRoot + DictRoot + StructRoot + ActRoot + FormRoot + MitRoot + AudRoot + SpectRoot + FerRoot + PrefixWordsA + PrefixWordsB + SuffixWordsA + SuffixWordsB + SuffixWordsC, OtherPrefixWords);
  }
}
