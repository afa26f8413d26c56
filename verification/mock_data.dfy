/** The record types of the application's static dataset and the seed values
    every page renders. Nothing here changes at run time. */
module MockData {
  import opened Dates
  import opened Seqs

  datatype Availability = Availability(date: Date, times: seq<string>)

  datatype Tutor = Tutor(
    id: string,
    name: string,
    avatar: string,
    department: string,
    level: string,
    rating: real,
    reviewCount: nat,
    hourlyRate: real,
    skills: seq<string>,
    bio: string,
    availability: seq<Availability>,
    totalSessions: nat)

  datatype SessionStatus = Upcoming | Completed | Cancelled

  datatype Session = Session(
    id: string,
    tutorName: string,
    tutorAvatar: string,
    subject: string,
    date: Date,
    time: string,
    duration: string,
    status: SessionStatus,
    meetingLink: Option<string>)

  datatype TransactionType = Credit | Debit

  datatype TransactionStatus = Completed | Pending

  datatype Transaction = Transaction(
    id: string,
    kind: TransactionType,
    amount: real,
    description: string,
    date: Date,
    status: TransactionStatus)

  datatype Sender = User | Other

  datatype Message = Message(id: string, sender: Sender, text: string, timestamp: string)

  datatype Conversation = Conversation(
    id: string,
    name: string,
    avatar: string,
    lastMessage: string,
    timestamp: string,
    unread: nat)

  datatype GroupClass = GroupClass(
    id: string,
    title: string,
    tutorName: string,
    tutorAvatar: string,
    department: string,
    subject: string,
    date: Date,
    time: string,
    duration: string,
    enrolled: nat,
    maxStudents: nat,
    price: real,
    description: string,
    topics: seq<string>)

  datatype Recording = Recording(
    id: string,
    title: string,
    tutorName: string,
    subject: string,
    department: string,
    date: Date,
    duration: string,
    views: nat,
    thumbnail: string,
    topics: seq<string>)

  const Tutor1: Tutor := Tutor(
    id := "1",
    name := "Sarah Johnson",
    avatar := "https://images.unsplash.com/photo-1494790108377-be9c29b29330?w=400",
    department := "Computer Science",
    level := "PhD Candidate",
    rating := 4.9,
    reviewCount := 127,
    hourlyRate := 35.0,
    skills := ["Python", "Machine Learning", "Data Structures", "Algorithms"],
    bio := "PhD candidate specializing in AI and Machine Learning. 5+ years of tutoring experience helping students excel in computer science fundamentals and advanced topics.",
    availability := [
      Availability(Date(2025, 11, 25), ["10:00 AM", "2:00 PM", "4:00 PM"]),
      Availability(Date(2025, 11, 26), ["11:00 AM", "3:00 PM"]),
      Availability(Date(2025, 11, 27), ["9:00 AM", "1:00 PM", "5:00 PM"])
    ],
    totalSessions := 342)

  const Tutor2: Tutor := Tutor(
    id := "2",
    name := "Michael Chen",
    avatar := "https://images.unsplash.com/photo-1507003211169-0a1dd7228f2d?w=400",
    department := "Mathematics",
    level := "Masters Student",
    rating := 4.8,
    reviewCount := 93,
    hourlyRate := 30.0,
    skills := ["Calculus", "Linear Algebra", "Statistics", "Differential Equations"],
    bio := "Mathematics masters student with a passion for teaching. I break down complex concepts into simple, understandable parts.",
    availability := [
      Availability(Date(2025, 11, 25), ["1:00 PM", "3:00 PM"]),
      Availability(Date(2025, 11, 26), ["10:00 AM", "2:00 PM", "4:00 PM"]),
      Availability(Date(2025, 11, 28), ["11:00 AM", "3:00 PM"])
    ],
    totalSessions := 256)

  const Tutor3: Tutor := Tutor(
    id := "3",
    name := "Emily Rodriguez",
    avatar := "https://images.unsplash.com/photo-1438761681033-6461ffad8d80?w=400",
    department := "Physics",
    level := "4th Year",
    rating := 4.7,
    reviewCount := 68,
    hourlyRate := 28.0,
    skills := ["Classical Mechanics", "Thermodynamics", "Electromagnetism", "Quantum Physics"],
    bio := "Senior physics student who loves helping others understand the fundamental laws of nature. Patient and encouraging teaching style.",
    availability := [
      Availability(Date(2025, 11, 25), ["9:00 AM", "11:00 AM"]),
      Availability(Date(2025, 11, 27), ["2:00 PM", "4:00 PM"]),
      Availability(Date(2025, 11, 29), ["10:00 AM", "1:00 PM"])
    ],
    totalSessions := 189)

  const Tutor4: Tutor := Tutor(
    id := "4",
    name := "David Kim",
    avatar := "https://images.unsplash.com/photo-1500648767791-00dcc994a43e?w=400",
    department := "Engineering",
    level := "PhD Candidate",
    rating := 4.9,
    reviewCount := 115,
    hourlyRate := 38.0,
    skills := ["Circuit Analysis", "Digital Systems", "Signal Processing", "Control Systems"],
    bio := "Electrical engineering PhD with industry experience. I focus on practical applications and real-world problem solving.",
    availability := [
      Availability(Date(2025, 11, 26), ["9:00 AM", "1:00 PM", "5:00 PM"]),
      Availability(Date(2025, 11, 27), ["10:00 AM", "3:00 PM"]),
      Availability(Date(2025, 11, 28), ["2:00 PM", "4:00 PM"])
    ],
    totalSessions := 298)

  const Tutor5: Tutor := Tutor(
    id := "5",
    name := "Jessica Taylor",
    avatar := "https://images.unsplash.com/photo-1544005313-94ddf0286df2?w=400",
    department := "Chemistry",
    level := "Masters Student",
    rating := 4.8,
    reviewCount := 84,
    hourlyRate := 32.0,
    skills := ["Organic Chemistry", "Biochemistry", "Analytical Chemistry", "Lab Techniques"],
    bio := "Chemistry masters student with lab teaching experience. I make chemistry accessible and interesting for all students.",
    availability := [
      Availability(Date(2025, 11, 25), ["11:00 AM", "2:00 PM"]),
      Availability(Date(2025, 11, 26), ["9:00 AM", "4:00 PM"]),
      Availability(Date(2025, 11, 29), ["10:00 AM", "1:00 PM", "3:00 PM"])
    ],
    totalSessions := 221)

  const Tutor6: Tutor := Tutor(
    id := "6",
    name := "Alex Martinez",
    avatar := "https://images.unsplash.com/photo-1472099645785-5658abf4ff4e?w=400",
    department := "Computer Science",
    level := "3rd Year",
    rating := 4.6,
    reviewCount := 52,
    hourlyRate := 25.0,
    skills := ["Java", "Web Development", "Databases", "Software Engineering"],
    bio := "Computer science student passionate about web development and software design. Friendly and patient teaching approach.",
    availability := [
      Availability(Date(2025, 11, 25), ["3:00 PM", "5:00 PM"]),
      Availability(Date(2025, 11, 27), ["11:00 AM", "2:00 PM"]),
      Availability(Date(2025, 11, 28), ["9:00 AM", "4:00 PM"])
    ],
    totalSessions := 145)

  const Tutors: seq<Tutor> := [Tutor1, Tutor2, Tutor3, Tutor4, Tutor5, Tutor6]

  const Sessions: seq<Session> := [
    Session("1", "Sarah Johnson", "https://images.unsplash.com/photo-1494790108377-be9c29b29330?w=400", "Machine Learning Fundamentals",
      Date(2025, 11, 26), "2:00 PM", "1 hour", Upcoming, Some("https://meet.tutormate.com/abc123")),
    Session("2", "Michael Chen", "https://images.unsplash.com/photo-1507003211169-0a1dd7228f2d?w=400", "Linear Algebra",
      Date(2025, 11, 28), "10:00 AM", "1 hour", Upcoming, Some("https://meet.tutormate.com/def456")),
    Session("3", "Emily Rodriguez", "https://images.unsplash.com/photo-1438761681033-6461ffad8d80?w=400", "Quantum Physics",
      Date(2025, 11, 22), "3:00 PM", "1 hour", SessionStatus.Completed, None)
  ]

  const Transactions: seq<Transaction> := [
    Transaction("1", Debit, 35.0, "Session with Sarah Johnson - Machine Learning", Date(2025, 11, 23), TransactionStatus.Completed),
    Transaction("2", Credit, 100.0, "Account top-up", Date(2025, 11, 20), TransactionStatus.Completed),
    Transaction("3", Debit, 30.0, "Session with Michael Chen - Calculus", Date(2025, 11, 18), TransactionStatus.Completed),
    Transaction("4", Debit, 28.0, "Session with Emily Rodriguez - Physics", Date(2025, 11, 15), TransactionStatus.Completed),
    Transaction("5", Credit, 50.0, "Account top-up", Date(2025, 11, 10), TransactionStatus.Completed)
  ]

  const Conversations: seq<Conversation> := [
    Conversation("1", "Sarah Johnson", "https://images.unsplash.com/photo-1494790108377-be9c29b29330?w=400", "See you tomorrow at 2 PM!", "10:30 AM", 0),
    Conversation("2", "Michael Chen", "https://images.unsplash.com/photo-1507003211169-0a1dd7228f2d?w=400", "Great! I can help with that topic.", "Yesterday", 2),
    Conversation("3", "Emily Rodriguez", "https://images.unsplash.com/photo-1438761681033-6461ffad8d80?w=400", "Thanks for the session!", "Nov 22", 0)
  ]

  const Messages: map<string, seq<Message>> := map[
    "1" := [
      Message("1", Other, "Hi! Looking forward to our session tomorrow.", "10:15 AM"),
      Message("2", User, "Me too! I have some questions about neural networks.", "10:20 AM"),
      Message("3", Other, "Perfect! I'll prepare some examples for you.", "10:25 AM"),
      Message("4", Other, "See you tomorrow at 2 PM!", "10:30 AM")
    ],
    "2" := [
      Message("1", User, "Hi Michael, can you help me with eigenvalues?", "Yesterday 3:00 PM"),
      Message("2", Other, "Great! I can help with that topic.", "Yesterday 3:15 PM")
    ],
    "3" := [
      Message("1", User, "Thanks for the session!", "Nov 22 4:30 PM")
    ]
  ]

  const Departments: seq<string> := [
    "Computer Science",
    "Mathematics",
    "Physics",
    "Chemistry",
    "Engineering",
    "Biology",
    "Economics",
    "Business"
  ]

  const GroupClasses: seq<GroupClass> := [
    GroupClass(
      id := "1", title := "Data Structures & Algorithms Workshop",
      tutorName := "Sarah Johnson", tutorAvatar := "https://images.unsplash.com/photo-1494790108377-be9c29b29330?w=400",
      department := "Computer Science", subject := "Data Structures",
      date := Date(2025, 11, 27), time := "3:00 PM", duration := "2 hours",
      enrolled := 8, maxStudents := 15, price := 20.0,
      description := "Comprehensive workshop covering binary trees, graphs, and advanced algorithms. Perfect for exam preparation.",
      topics := ["Binary Trees", "Graph Algorithms", "Dynamic Programming", "Time Complexity"]),
    GroupClass(
      id := "2", title := "Calculus II Exam Prep",
      tutorName := "Michael Chen", tutorAvatar := "https://images.unsplash.com/photo-1507003211169-0a1dd7228f2d?w=400",
      department := "Mathematics", subject := "Calculus",
      date := Date(2025, 11, 28), time := "5:00 PM", duration := "2 hours",
      enrolled := 12, maxStudents := 20, price := 15.0,
      description := "Intensive review session covering integration techniques, series, and applications of calculus.",
      topics := ["Integration Techniques", "Series & Sequences", "Parametric Equations", "Polar Coordinates"]),
    GroupClass(
      id := "3", title := "Quantum Mechanics Study Group",
      tutorName := "Emily Rodriguez", tutorAvatar := "https://images.unsplash.com/photo-1438761681033-6461ffad8d80?w=400",
      department := "Physics", subject := "Quantum Physics",
      date := Date(2025, 11, 29), time := "2:00 PM", duration := "1.5 hours",
      enrolled := 6, maxStudents := 10, price := 18.0,
      description := "Deep dive into quantum mechanics principles with problem-solving practice.",
      topics := ["Wave Functions", "Schr√∂dinger Equation", "Quantum States", "Operators"]),
    GroupClass(
      id := "4", title := "Web Development Bootcamp",
      tutorName := "Alex Martinez", tutorAvatar := "https://images.unsplash.com/photo-1472099645785-5658abf4ff4e?w=400",
      department := "Computer Science", subject := "Web Development",
      date := Date(2025, 11, 30), time := "4:00 PM", duration := "3 hours",
      enrolled := 15, maxStudents := 25, price := 25.0,
      description := "Hands-on workshop building a full-stack web application with React and Node.js.",
      topics := ["React Fundamentals", "REST APIs", "Database Design", "Deployment"]),
    GroupClass(
      id := "5", title := "Linear Algebra Crash Course",
      tutorName := "Michael Chen", tutorAvatar := "https://images.unsplash.com/photo-1507003211169-0a1dd7228f2d?w=400",
      department := "Mathematics", subject := "Linear Algebra",
      date := Date(2025, 12, 1), time := "1:00 PM", duration := "2 hours",
      enrolled := 10, maxStudents := 18, price := 15.0,
      description := "Complete review of vector spaces, eigenvalues, and matrix operations.",
      topics := ["Vector Spaces", "Eigenvalues & Eigenvectors", "Matrix Operations", "Determinants"]),
    GroupClass(
      id := "6", title := "Machine Learning Fundamentals",
      tutorName := "Sarah Johnson", tutorAvatar := "https://images.unsplash.com/photo-1494790108377-be9c29b29330?w=400",
      department := "Computer Science", subject := "Machine Learning",
      date := Date(2025, 12, 2), time := "6:00 PM", duration := "2.5 hours",
      enrolled := 14, maxStudents := 20, price := 30.0,
      description := "Introduction to ML algorithms with Python implementation examples.",
      topics := ["Supervised Learning", "Neural Networks", "Model Evaluation", "Python Libraries"])
  ]

  const Recordings: seq<Recording> := [
    Recording(
      id := "1", title := "Introduction to Machine Learning", tutorName := "Sarah Johnson",
      subject := "Machine Learning", department := "Computer Science", date := Date(2025, 11, 20),
      duration := "1:45:30", views := 234, thumbnail := "https://images.unsplash.com/photo-1555949963-aa79dcee981c?w=600",
      topics := ["ML Basics", "Algorithms", "Python"]),
    Recording(
      id := "2", title := "Calculus: Integration Techniques", tutorName := "Michael Chen",
      subject := "Calculus", department := "Mathematics", date := Date(2025, 11, 18),
      duration := "1:30:00", views := 189, thumbnail := "https://images.unsplash.com/photo-1635070041078-e363dbe005cb?w=600",
      topics := ["Integration", "U-Substitution", "By Parts"]),
    Recording(
      id := "3", title := "Quantum Mechanics Lecture 5", tutorName := "Emily Rodriguez",
      subject := "Quantum Physics", department := "Physics", date := Date(2025, 11, 15),
      duration := "2:00:15", views := 156, thumbnail := "https://images.unsplash.com/photo-1636466497217-26a8cbeaf0aa?w=600",
      topics := ["Wave Functions", "Operators", "States"]),
    Recording(
      id := "4", title := "Data Structures: Trees & Graphs", tutorName := "Sarah Johnson",
      subject := "Data Structures", department := "Computer Science", date := Date(2025, 11, 12),
      duration := "1:55:20", views := 312, thumbnail := "https://images.unsplash.com/photo-1509228627152-72ae9ae6848d?w=600",
      topics := ["Binary Trees", "Graph Traversal", "BFS", "DFS"]),
    Recording(
      id := "5", title := "Linear Algebra: Eigenvalues", tutorName := "Michael Chen",
      subject := "Linear Algebra", department := "Mathematics", date := Date(2025, 11, 10),
      duration := "1:40:00", views := 201, thumbnail := "https://images.unsplash.com/photo-1596495577886-d920f1fb7238?w=600",
      topics := ["Eigenvalues", "Eigenvectors", "Diagonalization"]),
    Recording(
      id := "6", title := "Web Development: React Basics", tutorName := "Alex Martinez",
      subject := "Web Development", department := "Computer Science", date := Date(2025, 11, 8),
      duration := "2:15:45", views := 278, thumbnail := "https://images.unsplash.com/photo-1633356122544-f134324a6cee?w=600",
      topics := ["React", "Components", "Hooks", "State Management"]),
    Recording(
      id := "7", title := "Organic Chemistry: Reactions", tutorName := "Jessica Taylor",
      subject := "Organic Chemistry", department := "Chemistry", date := Date(2025, 11, 5),
      duration := "1:50:30", views := 145, thumbnail := "https://images.unsplash.com/photo-1532094349884-543bc11b234d?w=600",
      topics := ["Mechanisms", "Synthesis", "Reactions"]),
    Recording(
      id := "8", title := "Circuit Analysis Fundamentals", tutorName := "David Kim",
      subject := "Circuit Analysis", department := "Engineering", date := Date(2025, 11, 3),
      duration := "2:05:00", views := 167, thumbnail := "https://images.unsplash.com/photo-1581092160607-ee67e8e15935?w=600",
      topics := ["Kirchhoff Laws", "AC Circuits", "Impedance"])
  ]

  /** No two seed tutors share an id, so a lookup by id is unambiguous. */
  lemma TutorIdsDistinct()
    ensures forall i, j :: 0 <= i < j < |Tutors| ==> Tutors[i].id != Tutors[j].id
  {
  }

  /** Every seed tutor is rated within 0..5 (in fact at least 4.5) and charges
      within the 0..50 range the price slider offers. */
  lemma TutorRanges()
    ensures forall i :: 0 <= i < |Tutors| ==>
      4.5 <= Tutors[i].rating <= 5.0 && 0.0 <= Tutors[i].hourlyRate <= 50.0
  {
  }

  /** Every seed tutor's department is one of the known departments. */
  lemma TutorDepartmentsKnown()
    ensures forall i :: 0 <= i < |Tutors| ==> Tutors[i].department in Departments
  {
  }

  /** No seed group class is over-subscribed. */
  lemma GroupClassesWithinCapacity()
    ensures forall i :: 0 <= i < |GroupClasses| ==> GroupClasses[i].enrolled <= GroupClasses[i].maxStudents
  {
  }

  /** Every conversation has a non-empty thread, and the preview line is the
      text of the thread's last message. */
  lemma ConversationsMatchThreads()
    ensures forall i :: 0 <= i < |Conversations| ==>
      var c := Conversations[i];
      c.id in Messages && |Messages[c.id]| > 0 && Messages[c.id][|Messages[c.id]| - 1].text == c.lastMessage
  {
  }

  // ---------------------------------------------------------------------
  // Lookup by id

  function HasId(id: string): Tutor -> bool
  {
    (t: Tutor) => t.id == id
  }

  /** `mockTutors.find((t) => t.id === id)`: the first tutor with that id. */
  function TutorById(ts: seq<Tutor>, id: string): (r: Option<Tutor>)
    ensures r.Some? ==> r.value in ts && r.value.id == id
    ensures r.None? <==> forall i :: 0 <= i < |ts| ==> ts[i].id != id
  {
    Find(ts, HasId(id))
  }

  /** With distinct ids, looking a tutor up by its own id finds that tutor. */
  lemma LookupOwnId(ts: seq<Tutor>, i: int)
    requires forall j, k :: 0 <= j < k < |ts| ==> ts[j].id != ts[k].id
    requires 0 <= i < |ts|
    ensures TutorById(ts, ts[i].id) == Some(ts[i])
  {
    var r := TutorById(ts, ts[i].id);
    var k :| 0 <= k < |ts| && ts[k] == r.value && HasId(ts[i].id)(ts[k]) && forall j :: 0 <= j < k ==> !HasId(ts[i].id)(ts[j]);
    assert k == i;
  }

  /** The seed ids are "1" to "6"; any other id finds no tutor. */
  lemma SeedLookup(id: string)
    ensures TutorById(Tutors, id).Some? <==> id in {"1", "2", "3", "4", "5", "6"}
  {
    assert Tutors[0].id == "1" && Tutors[1].id == "2" && Tutors[2].id == "3";
    assert Tutors[3].id == "4" && Tutors[4].id == "5" && Tutors[5].id == "6";
  }

  /** Every seeded tutor is found by its own, non-empty id. */
  lemma SeedLookupOwn(t: Tutor)
    requires t in Tutors
    ensures TutorById(Tutors, t.id) == Some(t)
    ensures t.id != ""
  {
    var i :| 0 <= i < |Tutors| && Tutors[i] == t;
    TutorIdsDistinct();
    LookupOwnId(Tutors, i);
  }

  // ---------------------------------------------------------------------
  // Availability on a date

  function OnDate(d: Date): Availability -> bool
  {
    (a: Availability) => a.date == d
  }

  /** `tutor.availability.find((a) => a.date === d)`: the first entry for
      the date, if the tutor has one. */
  function AvailabilityOn(t: Tutor, d: Date): (r: Option<Availability>)
    ensures r.Some? ==> r.value in t.availability && r.value.date == d
    ensures r.None? <==> forall i :: 0 <= i < |t.availability| ==> t.availability[i].date != d
  {
    Find(t.availability, OnDate(d))
  }

  /** The entry found is the first for its date. */
  lemma AvailabilityOnFirst(t: Tutor, d: Date, i: int)
    requires 0 <= i < |t.availability| && t.availability[i].date == d
    requires forall j :: 0 <= j < i ==> t.availability[j].date != d
    ensures AvailabilityOn(t, d) == Some(t.availability[i])
  {
    var r := AvailabilityOn(t, d);
    var k :| 0 <= k < |t.availability| && t.availability[k] == r.value && OnDate(d)(t.availability[k])
             && forall j :: 0 <= j < k ==> !OnDate(d)(t.availability[j]);
    assert k == i;
  }

  /** The tutor lists the date: the availability test shared by the date
      picker, the booking wizard and the "available today" badge. */
  predicate AvailableOn(t: Tutor, d: Date)
  {
    exists i :: 0 <= i < |t.availability| && t.availability[i].date == d
  }

  /** The lookup finds an entry exactly when the tutor lists the date. */
  lemma AvailableOnIff(t: Tutor, d: Date)
    ensures AvailabilityOn(t, d).Some? <==> AvailableOn(t, d)
  {
  }
}
