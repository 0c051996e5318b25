/**
 * The mock-interview panel: the interview and question catalogs it ships
 * with, the two status lists of the interview catalog, and the question bank's
 * filter by question type and difficulty, each of which may be left at "all".
 */
module MockInterviews {
  import opened Optional
  import opened ArrayOps

  datatype InterviewKind = AI | Peer
  datatype InterviewStatus = Scheduled | Completed | Available
  datatype Feedback = Feedback(rating: int, comments: string)

  /** `duration` is in minutes. */
  datatype Interview = Interview(
    id: string, kind: InterviewKind, title: string, description: string, duration: nat,
    scheduledFor: Option<string>, status: InterviewStatus, feedback: Option<Feedback>)

  datatype QuestionType = Technical | Behavioral
  datatype Difficulty = Easy | Medium | Hard

  datatype InterviewQuestion = InterviewQuestion(
    id: string, question: string, qtype: QuestionType, difficulty: Difficulty, sampleAnswer: Option<string>)

  /** A filter selection: the wildcard `'all'`, or one value to match exactly. */
  datatype Choice<T> = All | Only(value: T)

  const MockInterviewCatalog: seq<Interview> := [
    Interview("1", AI, "Data Structures & Algorithms",
      "Focus on arrays, linked lists, and basic algorithm questions", 45,
      Some("2025-03-25T14:00:00"), Scheduled, None),
    Interview("2", Peer, "System Design Basics",
      "Practice designing scalable systems and discussing trade-offs", 60,
      None, Available, None),
    Interview("3", AI, "Behavioral Interview",
      "Practice answering common behavioral questions", 30,
      Some("2025-03-20T10:00:00"), Completed,
      Some(Feedback(4, "Good communication skills. Work on providing more specific examples.")))
  ]

  const Question1 := InterviewQuestion("1", "Explain the difference between an array and a linked list.", Technical, Easy,
    Some("Arrays store elements in contiguous memory locations, allowing for constant-time access using indices. Linked lists store elements as nodes with pointers to the next node, allowing for efficient insertions and deletions but requiring linear-time access to elements."))

  const Question2 := InterviewQuestion("2", "Tell me about a time when you had to work under pressure to meet a deadline.", Behavioral, Medium,
    Some("During my final year project, our team faced a critical deadline due to unexpected technical challenges. I organized the team, prioritized tasks, and worked extra hours to ensure we delivered on time. This experience taught me the importance of adaptability and clear communication under pressure."))

  const Question3 := InterviewQuestion("3", "Design a URL shortening service like bit.ly.", Technical, Hard,
    Some("I would design a system with a web server, application logic, and database. The core functionality would involve generating a unique short code for each URL using techniques like hashing or base62 encoding. The system would need to handle high read throughput, so I would implement caching and potentially a NoSQL database for storage."))

  const Question4 := InterviewQuestion("4", "What is the difference between process and thread?", Technical, Medium,
    Some("A process is an instance of a program execution with its own memory space, while a thread is a lightweight execution unit within a process that shares the same memory space with other threads in the same process. Processes are isolated from each other, while threads can communicate more easily but require synchronization mechanisms to avoid race conditions."))

  const Question5 := InterviewQuestion("5", "Describe a situation where you had to resolve a conflict within your team.", Behavioral, Medium,
    Some("In my previous role, two team members had different approaches to implementing a feature, which led to tension. I organized a meeting where both could present their ideas, facilitated a discussion of pros and cons, and helped the team reach a consensus by combining the best aspects of both approaches. This experience taught me the value of active listening and finding common ground."))

  const Question6 := InterviewQuestion("6", "Explain the concept of database normalization and its benefits.", Technical, Medium,
    Some("Database normalization is the process of structuring a relational database to reduce data redundancy and improve data integrity. It involves organizing fields and tables to minimize dependency and redundancy by dividing large tables into smaller ones and defining relationships. Benefits include reduced storage space, better performance for certain queries, and elimination of anomalies that could lead to inconsistent data."))

  const Question7 := InterviewQuestion("7", "Tell me about a time when you received critical feedback and how you responded to it.", Behavioral, Medium,
    Some("During a code review, a senior developer pointed out that my solution was inefficient and would not scale well. Initially, I felt defensive, but I took time to understand their perspective. I asked for specific suggestions, researched better approaches, and implemented an improved solution. I now actively seek feedback earlier in the development process and view it as an opportunity for growth rather than criticism."))

  const Question8 := InterviewQuestion("8", "What are promises in JavaScript and how do they work?", Technical, Easy,
    Some("Promises in JavaScript are objects representing the eventual completion or failure of an asynchronous operation. They allow you to write asynchronous code in a more manageable way compared to callbacks. A promise has three states: pending, fulfilled, or rejected. You can chain promises using .then() for success cases and .catch() for error handling, making asynchronous code more readable and maintainable."))

  const Question9 := InterviewQuestion("9", "Describe a situation where you had to learn a new technology or skill quickly.", Behavioral, Easy,
    Some("When my team needed to implement a new feature using GraphQL, which none of us had experience with, I volunteered to lead the learning effort. I created a structured learning plan, including official documentation, tutorials, and small practice projects. Within two weeks, I was able to implement a basic prototype and share my knowledge with the team through a workshop. This approach allowed us to deliver the feature on time while building valuable team expertise."))

  const Question10 := InterviewQuestion("10", "Explain the concept of time and space complexity in algorithms.", Technical, Medium,
    Some("Time complexity measures how the runtime of an algorithm grows as the input size increases, while space complexity measures the amount of memory an algorithm needs. Both are typically expressed using Big O notation. For example, an algorithm with O(n) time complexity has a linear relationship between input size and runtime, while O(n²) indicates quadratic growth. When designing algorithms, we often need to balance these complexities, sometimes trading memory for speed or vice versa depending on the constraints."))

  const Question11 := InterviewQuestion("11", "How would you design a distributed cache system?", Technical, Hard,
    Some("I would design a distributed cache with a consistent hashing mechanism to distribute data across multiple nodes, ensuring scalability and fault tolerance. The system would include features like data partitioning, replication for redundancy, a TTL (Time-To-Live) mechanism for cache invalidation, and an eviction policy like LRU. I would implement a monitoring system to track hit/miss ratios and latency. For consistency, I might use techniques like write-through or write-behind caching depending on the specific requirements for data freshness versus performance."))

  const Question12 := InterviewQuestion("12", "Tell me about a time when you had to make a difficult decision with limited information.", Behavioral, Hard,
    Some("During a critical production issue, I had to decide whether to roll back a major feature release or attempt a fix with limited understanding of the root cause. With the system partially down and only fragmented error logs, I quickly gathered the available data, consulted with team members who had context on different components, and evaluated the risks of both options. I decided to implement a targeted fix rather than a full rollback, which proved successful. This experience taught me to establish better monitoring and create a structured decision-making framework for emergency situations."))

  const Question13 := InterviewQuestion("13", "Explain the CAP theorem and its implications for distributed systems.", Technical, Hard,
    Some("The CAP theorem states that a distributed system cannot simultaneously provide all three of the following guarantees: Consistency (all nodes see the same data at the same time), Availability (every request receives a response), and Partition tolerance (the system continues to operate despite network failures). In practice, when a network partition occurs, you must choose between consistency and availability. Systems like traditional RDBMS prioritize consistency, while NoSQL databases like Cassandra prioritize availability. Understanding these trade-offs is crucial when designing distributed systems based on specific business requirements."))

  const Question14 := InterviewQuestion("14", "Describe a situation where you demonstrated leadership without having a formal leadership role.", Behavioral, Hard,
    Some("When our team was struggling with an increasing number of bugs and technical debt, despite not being a team lead, I took initiative by analyzing patterns in our defects and creating a proposal for addressing root causes. I organized voluntary brown bag sessions to discuss code quality practices and volunteered to create a starter template for unit tests. By focusing on collaboration rather than criticism, I was able to get buy-in from both developers and management. Over three months, we reduced new defects by 40% and established better development practices that the team continues to follow."))

  const Question15 := InterviewQuestion("15", "What is the difference between REST and GraphQL APIs?", Technical, Medium,
    Some("REST APIs use standard HTTP methods and typically have multiple endpoints for different resources, while GraphQL provides a single endpoint where clients can specify exactly what data they need. REST often results in over-fetching or under-fetching data, requiring multiple requests for complex data needs. GraphQL solves this by allowing clients to request precisely the data they need in a single request. However, GraphQL has a steeper learning curve, can be more complex to implement on the server side, and may have performance challenges with deeply nested queries that REST APIs might handle more efficiently with purpose-built endpoints."))

  /** The question bank, in the order it is listed. */
  const MockQuestions: seq<InterviewQuestion> := [
    Question1, Question2, Question3, Question4, Question5, Question6, Question7, Question8,
    Question9, Question10, Question11, Question12, Question13, Question14, Question15
  ]

  /** The interviews with status scheduled, in catalog order. */
  function UpcomingInterviews(interviews: seq<Interview>): (r: seq<Interview>)
    ensures forall i :: 0 <= i < |r| ==> r[i].status == Scheduled && r[i] in interviews
    ensures forall i :: 0 <= i < |interviews| && interviews[i].status == Scheduled ==> interviews[i] in r
    ensures forall v :: multiset(r)[v] == if v.status == Scheduled then multiset(interviews)[v] else 0
    ensures IsSubsequence(r, interviews)
  {
    FilterCounts((v: Interview) => v.status == Scheduled, interviews);
    FilterIsSubsequence((v: Interview) => v.status == Scheduled, interviews);
    FilterMembership((v: Interview) => v.status == Scheduled, interviews);
    Filter((v: Interview) => v.status == Scheduled, interviews)
  }

  /** The interviews with status completed, in catalog order. */
  function CompletedInterviews(interviews: seq<Interview>): (r: seq<Interview>)
    ensures forall i :: 0 <= i < |r| ==> r[i].status == Completed && r[i] in interviews
    ensures forall i :: 0 <= i < |interviews| && interviews[i].status == Completed ==> interviews[i] in r
    ensures forall v :: multiset(r)[v] == if v.status == Completed then multiset(interviews)[v] else 0
    ensures IsSubsequence(r, interviews)
  {
    FilterCounts((v: Interview) => v.status == Completed, interviews);
    FilterIsSubsequence((v: Interview) => v.status == Completed, interviews);
    FilterMembership((v: Interview) => v.status == Completed, interviews);
    Filter((v: Interview) => v.status == Completed, interviews)
  }

  /** No interview is both upcoming and completed. */
  lemma UpcomingCompletedDisjoint(interviews: seq<Interview>)
    ensures forall v :: v in UpcomingInterviews(interviews) ==> v !in CompletedInterviews(interviews)
  {
  }

  /** The question filter's callback: two early rejections, one per dimension, then acceptance. */
  predicate Matches(q: InterviewQuestion, qtype: Choice<QuestionType>, difficulty: Choice<Difficulty>)
  {
    if qtype != All && q.qtype != qtype.value then false
    else if difficulty != All && q.difficulty != difficulty.value then false
    else true
  }

  /** What a selection means: each dimension is either unconstrained or matched exactly. */
  predicate Selected(q: InterviewQuestion, qtype: Choice<QuestionType>, difficulty: Choice<Difficulty>)
  {
    (qtype == All || q.qtype == qtype.value) && (difficulty == All || q.difficulty == difficulty.value)
  }

  /** The filter's callback as a value, for the selected type and difficulty. */
  function Matcher(qtype: Choice<QuestionType>, difficulty: Choice<Difficulty>): InterviewQuestion -> bool
  {
    (q: InterviewQuestion) => Matches(q, qtype, difficulty)
  }

  /** The question bank as shown for the selected type and difficulty. */
  function FilterQuestions(questions: seq<InterviewQuestion>, qtype: Choice<QuestionType>, difficulty: Choice<Difficulty>)
    : (r: seq<InterviewQuestion>)
    ensures forall i :: 0 <= i < |r| ==> r[i] in questions && Selected(r[i], qtype, difficulty)
    ensures forall i :: 0 <= i < |questions| && Selected(questions[i], qtype, difficulty) ==> questions[i] in r
    ensures forall q :: multiset(r)[q] == if Selected(q, qtype, difficulty) then multiset(questions)[q] else 0
    ensures IsSubsequence(r, questions) && |r| <= |questions|
  {
    var p := Matcher(qtype, difficulty);
    FilterCounts(p, questions);
    FilterIsSubsequence(p, questions);
    FilterMembership(p, questions);
    Filter(p, questions)
  }

  /** With both selections at "all" the whole catalog is shown, unchanged. */
  lemma FilterAllAll(questions: seq<InterviewQuestion>)
    ensures FilterQuestions(questions, All, All) == questions
  {
    FilterKeepsAll(Matcher(All, All), questions);
  }

  /** Choosing a question type shows a part of what "all types" shows, in the same order. */
  lemma TypeFilterMonotone(questions: seq<InterviewQuestion>, t: QuestionType, difficulty: Choice<Difficulty>)
    ensures IsSubsequence(FilterQuestions(questions, Only(t), difficulty), FilterQuestions(questions, All, difficulty))
  {
    FilterMonotone(Matcher(Only(t), difficulty), Matcher(All, difficulty), questions);
  }

  /** Choosing a difficulty shows a part of what "all difficulties" shows, in the same order. */
  lemma DifficultyFilterMonotone(questions: seq<InterviewQuestion>, qtype: Choice<QuestionType>, d: Difficulty)
    ensures IsSubsequence(FilterQuestions(questions, qtype, Only(d)), FilterQuestions(questions, qtype, All))
  {
    FilterMonotone(Matcher(qtype, Only(d)), Matcher(qtype, All), questions);
  }

  /** A filter over 15 elements that passes exactly the 3rd, 11th and 13th returns those three. */
  lemma ThreeOfFifteen(p: InterviewQuestion -> bool, s: seq<InterviewQuestion>)
    requires |s| == 15
    requires p(s[2]) && p(s[10]) && p(s[12])
    requires !p(s[0]) && !p(s[1]) && !p(s[3]) && !p(s[4]) && !p(s[5]) && !p(s[6])
    requires !p(s[7]) && !p(s[8]) && !p(s[9]) && !p(s[11]) && !p(s[13]) && !p(s[14])
    ensures Filter(p, s) == [s[2], s[10], s[12]]
  {
    assert s[15..] == [];
    assert Filter(p, s[14..]) == [] by { FilterStep(p, s, 14); }
    assert Filter(p, s[13..]) == [] by { FilterStep(p, s, 13); }
    assert Filter(p, s[12..]) == [s[12]] by { FilterStep(p, s, 12); }
    assert Filter(p, s[11..]) == [s[12]] by { FilterStep(p, s, 11); }
    assert Filter(p, s[10..]) == [s[10], s[12]] by { FilterStep(p, s, 10); }
    assert Filter(p, s[9..]) == [s[10], s[12]] by { FilterStep(p, s, 9); }
    assert Filter(p, s[8..]) == [s[10], s[12]] by { FilterStep(p, s, 8); }
    assert Filter(p, s[7..]) == [s[10], s[12]] by { FilterStep(p, s, 7); }
    assert Filter(p, s[6..]) == [s[10], s[12]] by { FilterStep(p, s, 6); }
    assert Filter(p, s[5..]) == [s[10], s[12]] by { FilterStep(p, s, 5); }
    assert Filter(p, s[4..]) == [s[10], s[12]] by { FilterStep(p, s, 4); }
    assert Filter(p, s[3..]) == [s[10], s[12]] by { FilterStep(p, s, 3); }
    assert Filter(p, s[2..]) == [s[2], s[10], s[12]] by { FilterStep(p, s, 2); }
    assert Filter(p, s[1..]) == [s[2], s[10], s[12]] by { FilterStep(p, s, 1); }
    assert Filter(p, s[0..]) == [s[2], s[10], s[12]] by { FilterStep(p, s, 0); }
    assert s[0..] == s;
  }

  /** The shipped questions that are technical and hard: the 3rd, 11th and 13th. */
  lemma TechnicalHardSelected()
    ensures |MockQuestions| == 15
    ensures MockQuestions[2] == Question3 && MockQuestions[10] == Question11 && MockQuestions[12] == Question13
    ensures var p := Matcher(Only(Technical), Only(Hard));
      p(MockQuestions[2]) && p(MockQuestions[10]) && p(MockQuestions[12])
  {
  }

  /** The first three shipped questions that are not both technical and hard. */
  lemma TechnicalHardRejectedFirst()
    ensures var p := Matcher(Only(Technical), Only(Hard));
      !p(MockQuestions[0]) && !p(MockQuestions[1]) && !p(MockQuestions[3])
  {
  }

  /** The next three shipped questions that are not both technical and hard. */
  lemma TechnicalHardRejectedSecond()
    ensures var p := Matcher(Only(Technical), Only(Hard));
      !p(MockQuestions[4]) && !p(MockQuestions[5]) && !p(MockQuestions[6])
  {
  }

  /** The remaining shipped questions that are not both technical and hard. */
  lemma TechnicalHardRejectedHigh()
    ensures var p := Matcher(Only(Technical), Only(Hard));
      !p(MockQuestions[7]) && !p(MockQuestions[8]) && !p(MockQuestions[9]) &&
      !p(MockQuestions[11]) && !p(MockQuestions[13]) && !p(MockQuestions[14])
  {
  }

  /** On the shipped question bank, technical and hard selects questions 3, 11 and 13, in that order. */
  lemma ShippedTechnicalHard()
    ensures FilterQuestions(MockQuestions, Only(Technical), Only(Hard)) == [Question3, Question11, Question13]
  {
    TechnicalHardSelected();
    TechnicalHardRejectedFirst();
    TechnicalHardRejectedSecond();
    TechnicalHardRejectedHigh();
    ThreeOfFifteen(Matcher(Only(Technical), Only(Hard)), MockQuestions);
  }

  /** Filtering the shipped interview catalog by scheduled status keeps interview 1 only. */
  lemma ScheduledOfShipped()
    ensures Filter((v: Interview) => v.status == Scheduled, MockInterviewCatalog) == [MockInterviewCatalog[0]]
  {
    var s := MockInterviewCatalog;
    var up := (v: Interview) => v.status == Scheduled;
    assert s[3..] == [] && s[0..] == s;
    FilterStep(up, s, 2); FilterStep(up, s, 1); FilterStep(up, s, 0);
  }

  /** Filtering the shipped interview catalog by completed status keeps interview 3 only. */
  lemma CompletedOfShipped()
    ensures Filter((v: Interview) => v.status == Completed, MockInterviewCatalog) == [MockInterviewCatalog[2]]
  {
    var s := MockInterviewCatalog;
    var done := (v: Interview) => v.status == Completed;
    assert s[3..] == [] && s[0..] == s;
    FilterStep(done, s, 2); FilterStep(done, s, 1); FilterStep(done, s, 0);
  }

  /** On the shipped interview catalog, interview 1 is the one upcoming and interview 3 the one completed. */
  lemma ShippedInterviewLists()
    ensures UpcomingInterviews(MockInterviewCatalog) == [MockInterviewCatalog[0]]
    ensures CompletedInterviews(MockInterviewCatalog) == [MockInterviewCatalog[2]]
  {
    ScheduledOfShipped();
    CompletedOfShipped();
  }
}
