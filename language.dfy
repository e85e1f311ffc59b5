/** The bilingual text layer of the page: two string tables (Slovak and English), the
    current language with its persisted preference, and lookup by key with a fallback
    to the key itself. */
module Language {
  import opened Wrappers

  /** The two languages the page offers. */
  datatype Lang = Sk | En

  /** The language the page starts in before any stored preference is read. */
  const Initial: Lang := Sk

  /** The storage key under which the preference is kept. */
  const StorageKey: string := "nexusmed-lang"

  /** The code a language is stored and compared under. */
  function Code(l: Lang): string
  {
    match l
    case Sk => "sk"
    case En => "en"
  }

  /** Reading a stored code back: exactly "sk" and "en" are accepted, nothing else. */
  function Parse(s: string): (r: Option<Lang>)
    ensures r.Some? ==> Code(r.value) == s
    ensures r.None? ==> s != Code(Sk) && s != Code(En)
  {
    if s == "sk" then Some(Sk) else if s == "en" then Some(En) else None
  }

  /** The preference found in storage, if it is a valid language code.  A missing
      entry, the empty string and every other value give None. */
  function SavedLanguage(storage: map<string, string>): (r: Option<Lang>)
    ensures r.Some? <==> StorageKey in storage && (storage[StorageKey] == "sk" || storage[StorageKey] == "en")
    ensures r.Some? ==> storage[StorageKey] == Code(r.value)
  {
    if StorageKey in storage then Parse(storage[StorageKey]) else None
  }

  /** The other language: Slovak becomes English, English becomes Slovak. */
  function Toggled(l: Lang): (r: Lang)
    ensures r != l
  {
    if l == Sk then En else Sk
  }

  /** Toggling is an involution. */
  lemma ToggledTwice(l: Lang)
    ensures Toggled(Toggled(l)) == l
  {
  }

  /** Writing a language's code under the storage key and reading it back gives that
      language: a toggled preference survives a reload. */
  lemma PreferenceRoundTrip(storage: map<string, string>, l: Lang)
    ensures SavedLanguage(storage[StorageKey := Code(l)]) == Some(l)
  {
  }

  // ---------------------------------------------------------------------------
  // The string tables, section by section as the source lays them out.
  // ---------------------------------------------------------------------------

  /** Slovak, section 'Navbar'. */
  const SkNavbar: map<string, string> := map[
      "navAbout" := "O nás",
      "navTechnology" := "Technológia",
      "navResearch" := "Výskum",
      "navContact" := "Kontakt",
      "navGetStarted" := "Začať"
    ]

  /** Slovak, section 'Hero'. */
  const SkHero: map<string, string> := map[
      "heroBadge" := "Revolucionizujeme zdravotníctvo",
      "heroTitleLine1" := "Budúcnosť",
      "heroTitleLine2" := "Medicíny",
      "heroTitleLine3" := "Začína tu",
      "heroDescription" := "Priekopnícke liečby prostredníctvom pokročilej biotechnológie a objavovania liekov pomocou AI. Kde sa veda stretáva s inováciou.",
      "heroDiscoverMore" := "Zistiť viac",
      "heroWatchDemo" := "Pozrieť demo",
      "heroClinicalTrials" := "Klinických štúdií",
      "heroPatientsReached" := "Dosiahnutých pacientov",
      "heroSuccessRate" := "Úspešnosť",
      "scrollToExplore" := "Posúvajte sa a objavujte"
    ]

  /** Slovak, section 'Features'. */
  const SkFeatures: map<string, string> := map[
      "featuresSectionLabel" := "Naša technológia",
      "featuresTitle1" := "Prelomová",
      "featuresTitle2" := "Inovácia",
      "featuresSubtitle" := "Štyri piliere nášho revolučného prístupu k modernej medicíne",
      "feature1Title" := "AI-riadený objav",
      "feature1Desc" := "Využívanie algoritmov strojového učenia na identifikáciu sľubných kandidátov na lieky 10x rýchlejšie ako tradičné metódy.",
      "feature1Details" := "Naša AI platforma analyzuje milióny molekulárnych štruktúr na nájdenie najsľubnejších kandidátov na lieky.",
      "feature2Title" := "Precízna medicína",
      "feature2Desc" := "Prispôsobenie liečby individuálnym genetickým profilom pre maximálnu účinnosť a minimálne vedľajšie účinky.",
      "feature2Details" := "Používame genetické profilovanie na vytvorenie personalizovaných plánov liečby pre každého pacienta.",
      "feature3Title" := "Nano doručovanie",
      "feature3Desc" := "Revolučné nanočasticové doručovacie systémy, ktoré cielene pôsobia na špecifické bunky s bezprecedentnou presnosťou.",
      "feature3Details" := "Naše nanočastice dokážu doručiť lieky priamo do chorých buniek a pritom šetriť zdravé tkanivo.",
      "feature4Title" := "Génová terapia",
      "feature4Desc" := "Špičková technológia CRISPR na opravu genetických mutácií priamo pri ich zdroji.",
      "feature4Details" := "Priekopníme v liečbe génovou editáciou pre predtým neliečiteľné genetické poruchy.",
      "learnMore" := "Zistiť viac"
    ]

  /** Slovak, section 'About'. */
  const SkAbout: map<string, string> := map[
      "aboutSectionLabel" := "// O nás",
      "aboutTitle1" := "Predefinujeme čo je",
      "aboutTitle2" := "Možné",
      "aboutDesc1" := "Založení v roku 2020, zhromaždili sme tím svetových vedcov, inžinierov a vizionárov zdravotníctva zjednotených jedinou misiou: transformovať spôsob, akým ľudstvo bojuje s chorobami.",
      "aboutDesc2" := "Naša proprietárna platforma kombinuje kvantové počítače, pokročilú AI a špičkovú biotechnológiu na urýchlenie objavovania liekov z rokov na mesiace.",
      "aboutFdaTitle" := "FDA Fast Track",
      "aboutFdaDesc" := "3 liečby v zrýchlenom schvaľovacom procese",
      "aboutGlobalTitle" := "Globálny dosah",
      "aboutGlobalDesc" := "Operácie v 24 krajinách po celom svete",
      "ourStory" := "Náš príbeh",
      "founded" := "Založené",
      "scientists" := "Vedcov",
      "funding" := "Financovanie",
      "patents" := "Patentov",
      "nextGenBiotech" := "Next-Gen\nBiotechnológia"
    ]

  /** Slovak, section 'Contact'. */
  const SkContact: map<string, string> := map[
      "contactSectionLabel" := "// Kontaktujte nás",
      "contactTitle1" := "Pripravení",
      "contactTitle2" := "Transformovať",
      "contactTitle3" := "Zdravotníctvo?",
      "contactDescription" := "Pripojte sa k nám v našej misii revolucionizovať medicínu. Či ste výskumník, investor alebo poskytovateľ zdravotnej starostlivosti, radi vás vypočujeme.",
      "scheduleCall" := "Naplánovať hovor",
      "partnershipInquiry" := "Partnerský dopyt",
      "email" := "Email",
      "location" := "Lokalita",
      "locationValue" := "Bratislava, Slovensko"
    ]

  /** Slovak, section 'Footer'. */
  const SkFooter: map<string, string> := map[
      "footerTagline" := "Priekopníci budúcnosti medicíny.",
      "footerPrivacy" := "Súkromie",
      "footerTerms" := "Podmienky",
      "footerCareers" := "Kariéra",
      "footerCopyright" := "© 2026 NexusMed. Všetky práva vyhradené."
    ]

  /** Slovak, section 'Modals'. */
  const SkModals: map<string, string> := map[
      "modalProductDemo" := "Demo produktu",
      "modalGetInTouch" := "Kontaktujte nás",
      "modalOurJourney" := "Naša cesta",
      "modalFeatureDetails" := "Detaily funkcie",
      "modalSuccess" := "Úspech"
    ]

  /** Slovak, section 'Demo Modal'. */
  const SkDemoModal: map<string, string> := map[
      "demoVideoPlaceholder" := "Video demo produktu",
      "demoDescription" := "Zažite našu revolučnú AI-riadenú platformu objavovania liekov v akcii. Pozrite sa, ako urýchľujeme cestu z laboratória k pacientovi.",
      "demoFeature1" := "AI Dizajn molekúl",
      "demoFeature2" := "10x rýchlejší objav",
      "demoFeature3" := "Precízne cielenie"
    ]

  /** Slovak, section 'Contact Form'. */
  const SkContactForm: map<string, string> := map[
      "formName" := "Meno",
      "formNamePlaceholder" := "Vaše meno",
      "formEmail" := "Email",
      "formEmailPlaceholder" := "vas@email.sk",
      "formCompany" := "Spoločnosť",
      "formCompanyPlaceholder" := "Vaša spoločnosť",
      "formMessage" := "Správa",
      "formMessagePlaceholder" := "Povedzte nám o vašich potrebách...",
      "formSend" := "Odoslať správu"
    ]

  /** Slovak, section 'Success Modal'. */
  const SkSuccessModal: map<string, string> := map[
      "successThankYou" := "Ďakujeme!",
      "successMessage" := "Prijali sme vašu správu a odpovieme vám do 24 hodín.",
      "successGotIt" := "Rozumiem"
    ]

  /** Slovak, section 'Story Modal'. */
  const SkStoryModal: map<string, string> := map[
      "storyYear2020" := "2020",
      "storyTitle2020" := "Začiatok",
      "storyDesc2020" := "Založené tímom výskumníkov zo Stanfordu a veteránov biotechnológie s víziou revolucionizovať objavovanie liekov.",
      "storyYear2022" := "2022",
      "storyTitle2022" := "Prelom",
      "storyDesc2022" := "Naša AI platforma úspešne identifikovala 3 nových kandidátov na lieky, čím skrátila čas objavovania o 80%.",
      "storyYear2024" := "2024",
      "storyTitle2024" := "Uznanie FDA",
      "storyDesc2024" := "Získali sme označenie FDA Fast Track pre náš hlavný program onkologickej liečby.",
      "storyYear2026" := "2026",
      "storyTitle2026" := "Globálny dopad",
      "storyDesc2026" := "Expanzia do 24 krajín, partnerstvá s poprednými zdravotníckymi inštitúciami po celom svete."
    ]

  /** Slovak, section 'Feature button'. */
  const SkFeatureButton: map<string, string> := map[
      "learnMoreAboutThis" := "Zistiť viac o tomto"
    ]

  /** Slovak, section 'Language'. */
  const SkLanguageName: map<string, string> := map[
      "language" := "SK"
    ]

  /** English, section 'Navbar'. */
  const EnNavbar: map<string, string> := map[
      "navAbout" := "About",
      "navTechnology" := "Technology",
      "navResearch" := "Research",
      "navContact" := "Contact",
      "navGetStarted" := "Get Started"
    ]

  /** English, section 'Hero'. */
  const EnHero: map<string, string> := map[
      "heroBadge" := "Revolutionizing Healthcare",
      "heroTitleLine1" := "The Future of",
      "heroTitleLine2" := "Medicine",
      "heroTitleLine3" := "Starts Here",
      "heroDescription" := "Pioneering breakthrough treatments through advanced biotechnology and AI-driven drug discovery. Where science meets innovation.",
      "heroDiscoverMore" := "Discover More",
      "heroWatchDemo" := "Watch Demo",
      "heroClinicalTrials" := "Clinical Trials",
      "heroPatientsReached" := "Patients Reached",
      "heroSuccessRate" := "Success Rate",
      "scrollToExplore" := "Scroll to explore"
    ]

  /** English, section 'Features'. */
  const EnFeatures: map<string, string> := map[
      "featuresSectionLabel" := "Our Technology",
      "featuresTitle1" := "Breakthrough",
      "featuresTitle2" := "Innovation",
      "featuresSubtitle" := "Four pillars of our revolutionary approach to modern medicine",
      "feature1Title" := "AI-Driven Discovery",
      "feature1Desc" := "Leveraging machine learning algorithms to identify promising drug candidates 10x faster than traditional methods.",
      "feature1Details" := "Our AI platform analyzes millions of molecular structures to find the most promising drug candidates.",
      "feature2Title" := "Precision Medicine",
      "feature2Desc" := "Tailoring treatments to individual genetic profiles for maximum efficacy and minimal side effects.",
      "feature2Details" := "We use genetic profiling to create personalized treatment plans for each patient.",
      "feature3Title" := "Nano Delivery",
      "feature3Desc" := "Revolutionary nanoparticle delivery systems that target specific cells with unprecedented accuracy.",
      "feature3Details" := "Our nanoparticles can deliver drugs directly to diseased cells while sparing healthy tissue.",
      "feature4Title" := "Gene Therapy",
      "feature4Desc" := "Cutting-edge CRISPR technology to correct genetic mutations at their source.",
      "feature4Details" := "We are pioneering gene editing treatments for previously untreatable genetic disorders.",
      "learnMore" := "Learn more"
    ]

  /** English, section 'About'. */
  const EnAbout: map<string, string> := map[
      "aboutSectionLabel" := "// About Us",
      "aboutTitle1" := "Redefining What's",
      "aboutTitle2" := "Possible",
      "aboutDesc1" := "Founded in 2020, we've assembled a world-class team of scientists, engineers, and healthcare visionaries united by a single mission: to transform how humanity fights disease.",
      "aboutDesc2" := "Our proprietary platform combines quantum computing, advanced AI, and cutting-edge biotechnology to accelerate drug discovery from years to months.",
      "aboutFdaTitle" := "FDA Fast Track",
      "aboutFdaDesc" := "3 treatments in accelerated approval pipeline",
      "aboutGlobalTitle" := "Global Reach",
      "aboutGlobalDesc" := "Operations across 24 countries worldwide",
      "ourStory" := "Our Story",
      "founded" := "Founded",
      "scientists" := "Scientists",
      "funding" := "Funding",
      "patents" := "Patents",
      "nextGenBiotech" := "Next-Gen\nBiotech"
    ]

  /** English, section 'Contact'. */
  const EnContact: map<string, string> := map[
      "contactSectionLabel" := "// Get in Touch",
      "contactTitle1" := "Ready to",
      "contactTitle2" := "Transform",
      "contactTitle3" := "Healthcare?",
      "contactDescription" := "Join us in our mission to revolutionize medicine. Whether you're a researcher, investor, or healthcare provider, we'd love to hear from you.",
      "scheduleCall" := "Schedule a Call",
      "partnershipInquiry" := "Partnership Inquiry",
      "email" := "Email",
      "location" := "Location",
      "locationValue" := "Bratislava, Slovakia"
    ]

  /** English, section 'Footer'. */
  const EnFooter: map<string, string> := map[
      "footerTagline" := "Pioneering the future of medicine.",
      "footerPrivacy" := "Privacy",
      "footerTerms" := "Terms",
      "footerCareers" := "Careers",
      "footerCopyright" := "© 2026 NexusMed. All rights reserved."
    ]

  /** English, section 'Modals'. */
  const EnModals: map<string, string> := map[
      "modalProductDemo" := "Product Demo",
      "modalGetInTouch" := "Get in Touch",
      "modalOurJourney" := "Our Journey",
      "modalFeatureDetails" := "Feature Details",
      "modalSuccess" := "Success"
    ]

  /** English, section 'Demo Modal'. */
  const EnDemoModal: map<string, string> := map[
      "demoVideoPlaceholder" := "Product Demo Video",
      "demoDescription" := "Experience our revolutionary AI-driven drug discovery platform in action. See how we're accelerating the path from lab to patient.",
      "demoFeature1" := "AI Molecule Design",
      "demoFeature2" := "10x Faster Discovery",
      "demoFeature3" := "Precision Targeting"
    ]

  /** English, section 'Contact Form'. */
  const EnContactForm: map<string, string> := map[
      "formName" := "Name",
      "formNamePlaceholder" := "Your name",
      "formEmail" := "Email",
      "formEmailPlaceholder" := "your@email.com",
      "formCompany" := "Company",
      "formCompanyPlaceholder" := "Your company",
      "formMessage" := "Message",
      "formMessagePlaceholder" := "Tell us about your needs...",
      "formSend" := "Send Message"
    ]

  /** English, section 'Success Modal'. */
  const EnSuccessModal: map<string, string> := map[
      "successThankYou" := "Thank You!",
      "successMessage" := "We've received your message and will get back to you within 24 hours.",
      "successGotIt" := "Got it"
    ]

  /** English, section 'Story Modal'. */
  const EnStoryModal: map<string, string> := map[
      "storyYear2020" := "2020",
      "storyTitle2020" := "The Beginning",
      "storyDesc2020" := "Founded by a team of Stanford researchers and biotech veterans with a vision to revolutionize drug discovery.",
      "storyYear2022" := "2022",
      "storyTitle2022" := "Breakthrough",
      "storyDesc2022" := "Our AI platform successfully identified 3 novel drug candidates, reducing discovery time by 80%.",
      "storyYear2024" := "2024",
      "storyTitle2024" := "FDA Recognition",
      "storyDesc2024" := "Received FDA Fast Track designation for our lead oncology treatment program.",
      "storyYear2026" := "2026",
      "storyTitle2026" := "Global Impact",
      "storyDesc2026" := "Expanded to 24 countries, partnering with leading healthcare institutions worldwide."
    ]

  /** English, section 'Feature button'. */
  const EnFeatureButton: map<string, string> := map[
      "learnMoreAboutThis" := "Learn More About This"
    ]

  /** English, section 'Language'. */
  const EnLanguageName: map<string, string> := map[
      "language" := "EN"
    ]

  /** The sections of the Slovak table, in source order. */
  const SkSections: seq<map<string, string>> := [
      SkNavbar, SkHero, SkFeatures, SkAbout,
      SkContact, SkFooter, SkModals, SkDemoModal,
      SkContactForm, SkSuccessModal, SkStoryModal, SkFeatureButton,
      SkLanguageName
    ]

  /** The sections of the English table, in source order. */
  const EnSections: seq<map<string, string>> := [
      EnNavbar, EnHero, EnFeatures, EnAbout,
      EnContact, EnFooter, EnModals, EnDemoModal,
      EnContactForm, EnSuccessModal, EnStoryModal, EnFeatureButton,
      EnLanguageName
    ]

  /** The entries of an object literal written as consecutive sections: a key in a later
      section overrides the same key in an earlier one. */
  function Merge(sections: seq<map<string, string>>): (m: map<string, string>)
    ensures forall k :: k in m <==> exists i :: 0 <= i < |sections| && k in sections[i]
  {
    if sections == [] then map[] else Merge(sections[..|sections| - 1]) + sections[|sections| - 1]
  }

  const SkTable: map<string, string> := Merge(SkSections)
  const EnTable: map<string, string> := Merge(EnSections)

  /** The table of a language. */
  function Table(l: Lang): map<string, string>
  {
    match l
    case Sk => SkTable
    case En => EnTable
  }

  /** Every entry of a table has a non-empty text. */
  ghost predicate NoEmptyText(m: map<string, string>)
  {
    forall k :: k in m ==> m[k] != ""
  }

  /** Lookup with the fallback of `table[key] || key`: a missing entry and an empty one
      (the only falsy string) both give the key itself. */
  function Lookup(table: map<string, string>, key: string): (r: string)
    ensures key in table && table[key] != "" ==> r == table[key]
    ensures key !in table || table[key] == "" ==> r == key
    ensures r == "" ==> key == ""
  {
    if key in table && table[key] != "" then table[key] else key
  }

  /** The text for a key in a language, as the page's lookup returns it. */
  function Translate(l: Lang, key: string): (r: string)
    ensures key in Table(l) && Table(l)[key] != "" ==> r == Table(l)[key]
    ensures key !in Table(l) || Table(l)[key] == "" ==> r == key
    ensures r == "" ==> key == ""
  {
    Lookup(Table(l), key)
  }

  // Per-section facts: each Slovak section has the keys of its English counterpart,
  // and no text in either is empty.  The first group speaks of the sections by name,
  // the second carries each fact to the section's position in the table.

  lemma NavbarSectionsAgree()
    ensures SkNavbar.Keys == EnNavbar.Keys && NoEmptyText(SkNavbar) && NoEmptyText(EnNavbar)
  {
  }

  lemma HeroSectionsAgree()
    ensures SkHero.Keys == EnHero.Keys && NoEmptyText(SkHero) && NoEmptyText(EnHero)
  {
  }

  lemma FeaturesSectionsAgree()
    ensures SkFeatures.Keys == EnFeatures.Keys && NoEmptyText(SkFeatures) && NoEmptyText(EnFeatures)
  {
  }

  lemma AboutSectionsAgree()
    ensures SkAbout.Keys == EnAbout.Keys && NoEmptyText(SkAbout) && NoEmptyText(EnAbout)
  {
  }

  lemma ContactSectionsAgree()
    ensures SkContact.Keys == EnContact.Keys && NoEmptyText(SkContact) && NoEmptyText(EnContact)
  {
  }

  lemma FooterSectionsAgree()
    ensures SkFooter.Keys == EnFooter.Keys && NoEmptyText(SkFooter) && NoEmptyText(EnFooter)
  {
  }

  lemma ModalsSectionsAgree()
    ensures SkModals.Keys == EnModals.Keys && NoEmptyText(SkModals) && NoEmptyText(EnModals)
  {
  }

  lemma DemoModalSectionsAgree()
    ensures SkDemoModal.Keys == EnDemoModal.Keys && NoEmptyText(SkDemoModal) && NoEmptyText(EnDemoModal)
  {
  }

  lemma ContactFormSectionsAgree()
    ensures SkContactForm.Keys == EnContactForm.Keys && NoEmptyText(SkContactForm) && NoEmptyText(EnContactForm)
  {
  }

  lemma SuccessModalSectionsAgree()
    ensures SkSuccessModal.Keys == EnSuccessModal.Keys && NoEmptyText(SkSuccessModal) && NoEmptyText(EnSuccessModal)
  {
  }

  lemma StoryModalSectionsAgree()
    ensures SkStoryModal.Keys == EnStoryModal.Keys && NoEmptyText(SkStoryModal) && NoEmptyText(EnStoryModal)
  {
  }

  lemma FeatureButtonSectionsAgree()
    ensures SkFeatureButton.Keys == EnFeatureButton.Keys && NoEmptyText(SkFeatureButton) && NoEmptyText(EnFeatureButton)
  {
  }

  lemma LanguageNameSectionsAgree()
    ensures SkLanguageName.Keys == EnLanguageName.Keys && NoEmptyText(SkLanguageName) && NoEmptyText(EnLanguageName)
  {
  }

  lemma SectionsAgreeAt0()
    ensures SkSections[0].Keys == EnSections[0].Keys
    ensures NoEmptyText(SkSections[0]) && NoEmptyText(EnSections[0])
  {
    NavbarSectionsAgree();
  }

  lemma SectionsAgreeAt1()
    ensures SkSections[1].Keys == EnSections[1].Keys
    ensures NoEmptyText(SkSections[1]) && NoEmptyText(EnSections[1])
  {
    HeroSectionsAgree();
  }

  lemma SectionsAgreeAt2()
    ensures SkSections[2].Keys == EnSections[2].Keys
    ensures NoEmptyText(SkSections[2]) && NoEmptyText(EnSections[2])
  {
    FeaturesSectionsAgree();
  }

  lemma SectionsAgreeAt3()
    ensures SkSections[3].Keys == EnSections[3].Keys
    ensures NoEmptyText(SkSections[3]) && NoEmptyText(EnSections[3])
  {
    AboutSectionsAgree();
  }

  lemma SectionsAgreeAt4()
    ensures SkSections[4].Keys == EnSections[4].Keys
    ensures NoEmptyText(SkSections[4]) && NoEmptyText(EnSections[4])
  {
    ContactSectionsAgree();
  }

  lemma SectionsAgreeAt5()
    ensures SkSections[5].Keys == EnSections[5].Keys
    ensures NoEmptyText(SkSections[5]) && NoEmptyText(EnSections[5])
  {
    FooterSectionsAgree();
  }

  lemma SectionsAgreeAt6()
    ensures SkSections[6].Keys == EnSections[6].Keys
    ensures NoEmptyText(SkSections[6]) && NoEmptyText(EnSections[6])
  {
    ModalsSectionsAgree();
  }

  lemma SectionsAgreeAt7()
    ensures SkSections[7].Keys == EnSections[7].Keys
    ensures NoEmptyText(SkSections[7]) && NoEmptyText(EnSections[7])
  {
    DemoModalSectionsAgree();
  }

  lemma SectionsAgreeAt8()
    ensures SkSections[8].Keys == EnSections[8].Keys
    ensures NoEmptyText(SkSections[8]) && NoEmptyText(EnSections[8])
  {
    ContactFormSectionsAgree();
  }

  lemma SectionsAgreeAt9()
    ensures SkSections[9].Keys == EnSections[9].Keys
    ensures NoEmptyText(SkSections[9]) && NoEmptyText(EnSections[9])
  {
    SuccessModalSectionsAgree();
  }

  lemma SectionsAgreeAt10()
    ensures SkSections[10].Keys == EnSections[10].Keys
    ensures NoEmptyText(SkSections[10]) && NoEmptyText(EnSections[10])
  {
    StoryModalSectionsAgree();
  }

  lemma SectionsAgreeAt11()
    ensures SkSections[11].Keys == EnSections[11].Keys
    ensures NoEmptyText(SkSections[11]) && NoEmptyText(EnSections[11])
  {
    FeatureButtonSectionsAgree();
  }

  lemma SectionsAgreeAt12()
    ensures SkSections[12].Keys == EnSections[12].Keys
    ensures NoEmptyText(SkSections[12]) && NoEmptyText(EnSections[12])
  {
    LanguageNameSectionsAgree();
  }

  /** Merging sections whose key sets agree pairwise gives tables whose key sets agree. */
  lemma {:induction false} MergeKeysAgree(a: seq<map<string, string>>, b: seq<map<string, string>>)
    requires |a| == |b|
    requires forall i :: 0 <= i < |a| ==> a[i].Keys == b[i].Keys
    ensures Merge(a).Keys == Merge(b).Keys
  {
    if a != [] {
      MergeKeysAgree(a[..|a| - 1], b[..|b| - 1]);
    }
  }

  /** Merging sections without empty texts gives a table without empty texts. */
  lemma {:induction false} MergeNoEmptyText(a: seq<map<string, string>>)
    requires forall i :: 0 <= i < |a| ==> NoEmptyText(a[i])
    ensures NoEmptyText(Merge(a))
  {
    if a != [] {
      MergeNoEmptyText(a[..|a| - 1]);
    }
  }

  /** A key of section i that no later section redefines keeps section i's text. */
  lemma {:induction false} MergeKeepsLastDefinition(a: seq<map<string, string>>, i: nat, k: string)
    requires i < |a| && k in a[i]
    requires forall j :: i < j < |a| ==> k !in a[j]
    ensures k in Merge(a) && Merge(a)[k] == a[i][k]
  {
    if i < |a| - 1 {
      MergeKeepsLastDefinition(a[..|a| - 1], i, k);
    }
  }

  /** Section by section, the two tables define the same keys with non-empty texts. */
  lemma SectionsAgree()
    ensures |SkSections| == |EnSections|
    ensures forall i :: 0 <= i < |SkSections| ==> SkSections[i].Keys == EnSections[i].Keys
    ensures forall i :: 0 <= i < |SkSections| ==> NoEmptyText(SkSections[i]) && NoEmptyText(EnSections[i])
  {
    SectionsAgreeAt0();
    SectionsAgreeAt1();
    SectionsAgreeAt2();
    SectionsAgreeAt3();
    SectionsAgreeAt4();
    SectionsAgreeAt5();
    SectionsAgreeAt6();
    SectionsAgreeAt7();
    SectionsAgreeAt8();
    SectionsAgreeAt9();
    SectionsAgreeAt10();
    SectionsAgreeAt11();
    SectionsAgreeAt12();
    forall i | 0 <= i < |SkSections|
      ensures SkSections[i].Keys == EnSections[i].Keys
      ensures NoEmptyText(SkSections[i]) && NoEmptyText(EnSections[i])
    {
      assert i == 0 || i == 1 || i == 2 || i == 3 || i == 4 || i == 5 || i == 6 || i == 7 || i == 8 || i == 9 || i == 10 || i == 11 || i == 12;
    }
  }

  /** The two tables define the same keys, and none of their texts is empty. */
  lemma TablesAgree()
    ensures SkTable.Keys == EnTable.Keys
    ensures NoEmptyText(SkTable) && NoEmptyText(EnTable)
  {
    SectionsAgree();
    MergeKeysAgree(SkSections, EnSections);
    MergeNoEmptyText(SkSections);
    MergeNoEmptyText(EnSections);
  }

  /** Lookup never falls back to the key for a key defined in either table, in either
      language: it returns that language's non-empty text. */
  lemma DefinedKeysTranslate(l: Lang, key: string)
    requires key in SkTable || key in EnTable
    ensures key in Table(l) && Translate(l, key) == Table(l)[key] && Translate(l, key) != ""
  {
    TablesAgree();
  }

  /** The language label reads 'SK' in Slovak ... */
  lemma SlovakLabel()
    ensures Translate(Sk, "language") == "SK"
  {
    MergeKeepsLastDefinition(SkSections, 12, "language");
  }

  /** ... and 'EN' in English. */
  lemma EnglishLabel()
    ensures Translate(En, "language") == "EN"
  {
    MergeKeepsLastDefinition(EnSections, 12, "language");
  }

  // ---------------------------------------------------------------------------
  // The provider: the current language and the browser storage it persists to.
  // ---------------------------------------------------------------------------

  /** The language provider: its current language, and the key/value storage the
      preference is read from and written to. */
  class LanguageProvider {
    var language: Lang
    var storage: map<string, string>

    /** A provider starts in Slovak; the storage is what the browser already holds. */
    constructor (storage: map<string, string>)
      ensures language == Initial && this.storage == storage
    {
      language := Initial;
      this.storage := storage;
    }

    /** The mount effect: a stored "sk" or "en" replaces the language; anything else,
        or nothing stored, leaves it unchanged.  Storage is only read. */
    method RestoreSaved()
      modifies this
      ensures storage == old(storage)
      ensures language == SavedLanguage(storage).GetOr(old(language))
    {
      if StorageKey in storage {
        var saved := storage[StorageKey];
        if saved != "" && (saved == "sk" || saved == "en") {
          language := if saved == "sk" then Sk else En;
        }
      }
    }

    /** Flips the language and stores the new code under the storage key; no other
        storage entry changes. */
    method ToggleLanguage()
      modifies this
      ensures language == Toggled(old(language))
      ensures storage == old(storage)[StorageKey := Code(language)]
    {
      var newLang := if language == Sk then En else Sk;
      language := newLang;
      storage := storage[StorageKey := Code(newLang)];
    }

    /** The lookup the provider hands out, bound to its current language. */
    function T(key: string): (r: string)
      reads this
      ensures key in Table(language) && Table(language)[key] != "" ==> r == Table(language)[key]
      ensures key !in Table(language) || Table(language)[key] == "" ==> r == key
      ensures r == "" ==> key == ""
    {
      Translate(language, key)
    }
  }

  /** Toggling twice restores the language, and the store then holds its code; a
      provider created over that store and restored starts in the same language. */
  method ToggleTwiceThenReload(p: LanguageProvider) returns (reloaded: LanguageProvider)
    modifies p
    ensures p.language == old(p.language)
    ensures p.storage == old(p.storage)[StorageKey := Code(p.language)]
    ensures fresh(reloaded) && reloaded.language == p.language && reloaded.storage == p.storage
  {
    p.ToggleLanguage();
    p.ToggleLanguage();
    reloaded := new LanguageProvider(p.storage);
    reloaded.RestoreSaved();
  }
}
