/**
 * The one hundred questions of the proof-of-concept datasets, block by block
 * in category order. The test dataset and the evaluation dataset list the same
 * questions with the same ids, so both are built from these blocks. Each
 * block's ids are `prefix_001`, `prefix_002`, ... in order, which is how the
 * ids are written out in both dataset files.
 */
module QuestionBank {
  import opened Datasets

  const Easy: string := "easy"
  const Medium: string := "medium"
  const Hard: string := "hard"

  /** Technical questions (research/test_dataset.py:55-197). */
  const TechnicalEntries: seq<Entry> := [
    Entry("What is PydanticAI and how does it differ from LangChain?",
          Easy, 5, "Test understanding of modern AI frameworks"),
    Entry("Explain the architecture and benefits of retrieval-augmented generation (RAG) systems",
          Medium, 8, ""),
    Entry("What are the latest advancements in transformer model architectures as of 2025?",
          Hard, 10, "Requires recent information"),
    Entry("How does fine-tuning differ from prompt engineering for LLM customization?",
          Medium, 6, ""),
    Entry("What are the key techniques for reducing hallucinations in large language models?",
          Medium, 7, ""),
    Entry("Explain vector databases and their role in semantic search applications",
          Easy, 5, ""),
    Entry("What is the difference between Docker and Kubernetes in container orchestration?",
          Easy, 4, ""),
    Entry("How do graph neural networks differ from traditional neural networks?",
          Hard, 8, ""),
    Entry("What are the main architectural patterns for microservices communication?",
          Medium, 6, ""),
    Entry("Explain zero-shot, few-shot, and chain-of-thought prompting techniques",
          Medium, 7, ""),
    Entry("What are the security considerations for deploying AI models in production?",
          Hard, 9, ""),
    Entry("How does federated learning enable privacy-preserving machine learning?",
          Hard, 8, ""),
    Entry("What is the role of attention mechanisms in modern neural architectures?",
          Medium, 6, ""),
    Entry("Explain the concept of model quantization and its impact on inference speed",
          Medium, 5, ""),
    Entry("What are the latest techniques for efficient long-context processing in LLMs?",
          Hard, 8, "Requires 2025 information"),
    Entry("How do continuous integration and continuous deployment (CI/CD) pipelines work?",
          Easy, 5, ""),
    Entry("What are the key differences between SQL and NoSQL databases?",
          Easy, 4, ""),
    Entry("Explain the concept of event-driven architecture and its use cases",
          Medium, 6, ""),
    Entry("What are multimodal AI models and what capabilities do they enable?",
          Medium, 7, ""),
    Entry("How do recommendation systems use collaborative filtering and content-based approaches?",
          Medium, 6, "")
  ]

  /** Business questions (research/test_dataset.py:199-338). */
  const BusinessEntries: seq<Entry> := [
    Entry("What are the key factors driving the adoption of AI in small businesses?",
          Medium, 8, ""),
    Entry("How has remote work affected commercial real estate markets since 2020?",
          Medium, 10, ""),
    Entry("What are the main competitive strategies for SaaS companies in 2025?",
          Medium, 7, ""),
    Entry("Explain the subscription economy and its impact on traditional retail",
          Easy, 6, ""),
    Entry("What are the economic implications of the gig economy on labor markets?",
          Hard, 9, ""),
    Entry("How do venture capital firms evaluate early-stage startups?",
          Medium, 7, ""),
    Entry("What are the key metrics for measuring SaaS business health and growth?",
          Easy, 5, ""),
    Entry("How has e-commerce disrupted traditional retail supply chains?",
          Medium, 8, ""),
    Entry("What are the main challenges facing the electric vehicle market in 2025?",
          Medium, 9, ""),
    Entry("Explain the concept of platform business models and network effects",
          Medium, 6, ""),
    Entry("What are the primary factors influencing cryptocurrency market volatility?",
          Hard, 10, ""),
    Entry("How do companies use customer lifetime value (CLV) for strategic decisions?",
          Medium, 6, ""),
    Entry("What are the key considerations for pricing strategies in B2B SaaS?",
          Medium, 7, ""),
    Entry("How has AI automation affected job markets across different industries?",
          Hard, 11, ""),
    Entry("What are the main drivers of success for marketplace businesses?",
          Medium, 7, ""),
    Entry("Explain the concept of blue ocean strategy versus red ocean competition",
          Easy, 4, ""),
    Entry("What are the economic impacts of carbon pricing policies on industries?",
          Hard, 9, ""),
    Entry("How do companies measure and optimize customer acquisition cost (CAC)?",
          Easy, 5, ""),
    Entry("What are the key trends in direct-to-consumer (D2C) brand strategies?",
          Medium, 8, ""),
    Entry("How has fintech disrupted traditional banking services?",
          Medium, 9, "")
  ]

  /** Scientific questions (research/test_dataset.py:340-444). */
  const ScientificEntries: seq<Entry> := [
    Entry("What are the latest findings on CRISPR gene editing safety and efficacy?",
          Hard, 10, ""),
    Entry("Explain the current scientific understanding of long COVID symptoms and treatments",
          Hard, 12, ""),
    Entry("What are the main theories explaining the accelerated expansion of the universe?",
          Hard, 9, ""),
    Entry("How do mRNA vaccines work and what makes them different from traditional vaccines?",
          Medium, 8, ""),
    Entry("What are the latest developments in quantum computing hardware?",
          Hard, 11, ""),
    Entry("Explain the role of the gut microbiome in human health and disease",
          Medium, 9, ""),
    Entry("What are the current theories on the origin of consciousness?",
          Hard, 10, ""),
    Entry("How does neuroplasticity enable the brain to adapt and reorganize?",
          Medium, 7, ""),
    Entry("What are the main approaches to developing fusion energy power plants?",
          Hard, 9, ""),
    Entry("Explain the evidence for and against the simulation hypothesis",
          Hard, 8, ""),
    Entry("What are the latest discoveries about exoplanets in habitable zones?",
          Medium, 8, ""),
    Entry("How do CRISPR-based diagnostics work for disease detection?",
          Medium, 7, ""),
    Entry("What are the main mechanisms behind aging at the cellular level?",
          Hard, 10, ""),
    Entry("Explain the current state of research on artificial photosynthesis",
          Hard, 8, ""),
    Entry("What are the key findings from recent studies on ocean acidification impacts?",
          Medium, 9, "")
  ]

  /** Historical questions (research/test_dataset.py:446-515). */
  const HistoricalEntries: seq<Entry> := [
    Entry("What were the key events leading to the fall of the Berlin Wall in 1989?",
          Medium, 6, ""),
    Entry("How did the Manhattan Project develop the first atomic bomb?",
          Medium, 7, ""),
    Entry("What factors led to the 2008 financial crisis?",
          Medium, 9, ""),
    Entry("Explain the key milestones in the history of the internet from ARPANET to today",
          Easy, 6, ""),
    Entry("What were the main causes and consequences of the Industrial Revolution?",
          Medium, 7, ""),
    Entry("How did the printing press change society in Renaissance Europe?",
          Easy, 5, ""),
    Entry("What were the key technological innovations during the Space Race?",
          Medium, 7, ""),
    Entry("How did the green revolution transform global agriculture?",
          Medium, 6, ""),
    Entry("What were the main factors that led to the dot-com bubble and its burst?",
          Medium, 8, ""),
    Entry("How did the invention of the transistor revolutionize electronics?",
          Easy, 5, "")
  ]

  /** Comparative questions (research/test_dataset.py:517-621). */
  const ComparativeEntries: seq<Entry> := [
    Entry("Compare and contrast supervised learning versus unsupervised learning in machine learning",
          Easy, 5, ""),
    Entry("What are the key differences between agile and waterfall project management methodologies?",
          Easy, 4, ""),
    Entry("Compare the capabilities and limitations of GPT-4 versus Claude 3",
          Medium, 8, ""),
    Entry("How do solar and wind energy compare in terms of efficiency and scalability?",
          Medium, 7, ""),
    Entry("What are the differences between centralized and decentralized blockchain architectures?",
          Medium, 6, ""),
    Entry("Compare the economic systems of capitalism and socialism",
          Hard, 9, ""),
    Entry("How do relational and graph databases differ in structure and use cases?",
          Medium, 6, ""),
    Entry("Compare inductive versus deductive reasoning in scientific research",
          Medium, 5, ""),
    Entry("What are the key differences between React, Vue, and Angular frameworks?",
          Easy, 5, ""),
    Entry("Compare public cloud versus private cloud infrastructure for enterprises",
          Medium, 7, ""),
    Entry("How do electric vehicles compare to hydrogen fuel cell vehicles?",
          Medium, 8, ""),
    Entry("Compare traditional education versus online learning effectiveness",
          Hard, 10, ""),
    Entry("What are the differences between B2B and B2C marketing strategies?",
          Easy, 5, ""),
    Entry("Compare the approaches of interpretable AI versus black-box models",
          Hard, 8, ""),
    Entry("How do monolithic versus microservices architectures compare in complexity and scalability?",
          Medium, 6, "")
  ]

  /** Emerging questions (research/test_dataset.py:623-693). */
  const EmergingEntries: seq<Entry> := [
    Entry("What are the latest trends in generative AI for code development?",
          Medium, 8, "Requires 2025 information"),
    Entry("How is edge computing transforming IoT applications?",
          Medium, 7, ""),
    Entry("What are the emerging applications of brain-computer interfaces?",
          Hard, 9, ""),
    Entry("How is synthetic biology being used to create new materials and medicines?",
          Hard, 8, ""),
    Entry("What are the latest developments in autonomous vehicle technology?",
          Medium, 9, ""),
    Entry("How is Web3 technology changing digital ownership and identity?",
          Medium, 8, ""),
    Entry("What are the emerging trends in personalized medicine and genomics?",
          Hard, 10, ""),
    Entry("How is augmented reality being integrated into enterprise workflows?",
          Medium, 7, ""),
    Entry("What are the latest trends in sustainable fashion and circular economy?",
          Medium, 8, ""),
    Entry("How is AI being used to accelerate drug discovery processes?",
          Hard, 9, "")
  ]

  /** Synthesis questions (research/test_dataset.py:695-729). */
  const SynthesisEntries: seq<Entry> := [
    Entry("How can AI and biotechnology combine to address climate change challenges?",
          Hard, 12, ""),
    Entry("What are the ethical, technical, and societal implications of widespread AI adoption?",
          Hard, 15, ""),
    Entry("How do economic incentives, policy frameworks, and technology intersect in renewable energy adoption?",
          Hard, 13, ""),
    Entry("What are the interconnections between urbanization, public health, and environmental sustainability?",
          Hard, 14, ""),
    Entry("How do psychology, technology design, and business strategy combine in building habit-forming products?",
          Hard, 11, "")
  ]

  /** Validation questions (research/test_dataset.py:731-766). */
  const ValidationEntries: seq<Entry> := [
    Entry("Is quantum computing currently capable of breaking RSA encryption?",
          Medium, 7, ""),
    Entry("Do humans only use 10% of their brain capacity?",
          Easy, 4, "Common myth to debunk"),
    Entry("Has artificial general intelligence (AGI) been achieved as of 2025?",
          Easy, 6, ""),
    Entry("Are electric vehicles truly zero-emission when considering full lifecycle?",
          Medium, 8, ""),
    Entry("Can blockchain technology eliminate all forms of financial fraud?",
          Medium, 7, "")
  ]

  /** The entries of one category's block. */
  function EntriesOf(c: Category): seq<Entry> {
    match c
    case Technical => TechnicalEntries
    case Business => BusinessEntries
    case Scientific => ScientificEntries
    case Historical => HistoricalEntries
    case Comparative => ComparativeEntries
    case Emerging => EmergingEntries
    case Synthesis => SynthesisEntries
    case Validation => ValidationEntries
  }

  /** How many questions each category has. */
  function ExpectedCount(c: Category): nat {
    match c
    case Technical => 20
    case Business => 20
    case Scientific => 15
    case Historical => 10
    case Comparative => 15
    case Emerging => 10
    case Synthesis => 5
    case Validation => 5
  }

  lemma EntriesSmall(c: Category)
    ensures |EntriesOf(c)| == ExpectedCount(c) < 999
  {
  }

  /** The dataset's questions: one block per category, in declaration order. */
  function Questions(): (qs: seq<Question>)
  {
    AllEntriesSmall();
    Blocks(AllCategories, EntriesOf)
  }

  lemma AllEntriesSmall()
    ensures forall c :: |EntriesOf(c)| < 999
  {
    forall c ensures |EntriesOf(c)| < 999 {
      EntriesSmall(c);
    }
  }

  /** `get_test_dataset()`. */
  function TestDataset(): Dataset {
    Dataset(DatasetVersion, Questions())
  }

  /** `get_evaluation_dataset()`: the same questions under the same version. */
  function EvaluationDataset(): Dataset {
    Dataset(DatasetVersion, Questions())
  }

  /** Filtering by a category gives exactly that category's block, in dataset order. */
  lemma ByCategoryIsBlock(c: Category)
    ensures ByCategory(Questions(), c) == Block(c, EntriesOf(c))
    ensures |ByCategory(Questions(), c)| == ExpectedCount(c)
  {
    AllEntriesSmall();
    AllBlocksByCategory(EntriesOf, c);
    EntriesSmall(c);
  }

  /**
   * Each category has its expected number of questions: 20 technical, 20
   * business, 15 scientific, 10 historical, 15 comparative, 10 emerging,
   * 5 synthesis and 5 validation.
   */
  lemma CategoryCounts()
    ensures forall c :: |ByCategory(Questions(), c)| == ExpectedCount(c)
  {
    forall c ensures |ByCategory(Questions(), c)| == ExpectedCount(c) {
      ByCategoryIsBlock(c);
    }
  }

  /** With the expected number of questions in each category, there are 100 in all. */
  lemma {:induction false} TotalOfCounts<T(!new)>(xs: seq<T>, category: T -> Category)
    requires forall c :: |OfCategory(xs, category, c)| == ExpectedCount(c)
    ensures |xs| == 100
  {
    CategoriesPartition(xs, category);
    var cs := AllCategories;
    assert CountAcross(xs, category, cs[8..]) == 0;
    assert CountAcross(xs, category, cs[7..]) == 5;
    assert CountAcross(xs, category, cs[6..]) == 10;
    assert CountAcross(xs, category, cs[5..]) == 20;
    assert CountAcross(xs, category, cs[4..]) == 35;
    assert CountAcross(xs, category, cs[3..]) == 45;
    assert CountAcross(xs, category, cs[2..]) == 60;
    assert CountAcross(xs, category, cs[1..]) == 80;
  }

  /** Both datasets are version "1.0.0" with 100 questions, and every category has questions. */
  lemma DatasetShape()
    ensures TestDataset().version == "1.0.0" && |TestDataset().questions| == 100
    ensures EvaluationDataset() == TestDataset()
    ensures forall c :: |ByCategory(Questions(), c)| > 0
  {
    CategoryCounts();
    TotalOfCounts(Questions(), (q: Question) => q.category);
  }

  /** No two questions share an id. */
  lemma DistinctQuestionIds()
    ensures DistinctIds(Questions())
  {
    AllEntriesSmall();
    AllCategoriesDistinct();
    BlocksDistinct(AllCategories, EntriesOf);
  }

  lemma EntryDifficulties(c: Category)
    ensures forall i :: 0 <= i < |EntriesOf(c)| ==> EntriesOf(c)[i].difficulty in Difficulties
  {
  }

  /** Every difficulty is "easy", "medium" or "hard". */
  lemma KnownDifficulties()
    ensures forall q :: q in Questions() ==> q.difficulty in Difficulties
  {
    AllEntriesSmall();
    forall c ensures forall i :: 0 <= i < |EntriesOf(c)| ==> EntriesOf(c)[i].difficulty in Difficulties {
      EntryDifficulties(c);
    }
    BlocksDifficulties(AllCategories, EntriesOf, Difficulties);
  }

}
