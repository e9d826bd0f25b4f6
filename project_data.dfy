/** The `Project` record and the static table of the portfolio's six work
    samples. The table is immutable configuration data. */
module ProjectData {

  /** `'webapp' | 'website' | 'mobile'`: the type admits exactly these three. */
  datatype Category = WebApp | Website | Mobile

  datatype Project = Project(
    id: string,
    title: string,
    description: string,
    image: string,
    category: Category,
    technologies: seq<string>,
    features: seq<string>,
    challenges: string,
    github: string,
    demo: string)

  const Project1: Project :=
    Project(
      id := "project1",
      title := "E-Commerce Platform",
      description := "Moderne Shopping-Plattform mit React, Stripe-Integration und responsivem Design",
      image := "https://images.unsplash.com/photo-1556742049-0cfed4f6a45d?ixlib=rb-4.0.3&ixid=M3wxMjA3fDB8MHxwaG90by1wYWdlfHx8fGVufDB8fHx8fA%3D%3D&auto=format&fit=crop&w=800&h=500",
      category := WebApp,
      technologies := ["React", "Stripe", "Tailwind"],
      features := ["Responsive Design", "Stripe-Integration", "Produktverwaltung", "Warenkorb-System", "User Authentication"],
      challenges := "Die größte Herausforderung war die Integration verschiedener Zahlungsmethoden und die Optimierung der Performance.",
      github := "#",
      demo := "#")

  const Project2: Project :=
    Project(
      id := "project2",
      title := "Task Manager",
      description := "Kollaborative Projektmanagement-App mit Real-time Updates und Team-Features",
      image := "https://images.unsplash.com/photo-1611224923853-80b023f02d71?ixlib=rb-4.0.3&ixid=M3wxMjA3fDB8MHxwaG90by1wYWdlfHx8fGVufDB8fHx8fA%3D%3D&auto=format&fit=crop&w=800&h=500",
      category := WebApp,
      technologies := ["React", "Socket.io", "Node.js"],
      features := ["Real-time Collaboration", "Task Assignment", "Progress Tracking", "Team Management", "Notifications"],
      challenges := "Die Integration von Socket.io für Real-time Updates und die Skalierung für mehrere Teams.",
      github := "#",
      demo := "#")

  const Project3: Project :=
    Project(
      id := "project3",
      title := "Restaurant Website",
      description := "Elegante Restaurant-Website mit Online-Bestellsystem und Reservierungsmanagement",
      image := "https://images.unsplash.com/photo-1517248135467-4c7edcad34c4?ixlib=rb-4.0.3&ixid=M3wxMjA3fDB8MHxwaG90by1wYWdlfHx8fGVufDB8fHx8fA%3D%3D&auto=format&fit=crop&w=800&h=500",
      category := Website,
      technologies := ["HTML5", "CSS3", "JavaScript"],
      features := ["Online Reservierung", "Menü-Verwaltung", "Kontaktformular", "Bildergalerie", "Mobile Optimierung"],
      challenges := "Die Herausforderung war die nahtlose Integration des Reservierungssystems und die Optimierung für mobile Geräte.",
      github := "#",
      demo := "#")

  const Project4: Project :=
    Project(
      id := "project4",
      title := "Fitness Tracker",
      description := "Mobile-First Fitness-App mit Tracking-Features und personalisierten Trainingsplänen",
      image := "https://images.unsplash.com/photo-1571019613454-1cb2f99b2d8b?ixlib=rb-4.0.3&ixid=M3wxMjA3fDB8MHxwaG90by1wYWdlfHx8fGVufDB8fHx8fA%3D%3D&auto=format&fit=crop&w=800&h=500",
      category := Mobile,
      technologies := ["React Native", "Firebase", "Charts"],
      features := ["Workout Tracking", "Progress Charts", "Personal Training Plans", "Social Features", "Nutrition Tracking"],
      challenges := "Die Entwicklung einer benutzerfreundlichen Mobile-App mit komplexen Chart-Funktionen.",
      github := "#",
      demo := "#")

  const Project5: Project :=
    Project(
      id := "project5",
      title := "Creative Portfolio",
      description := "Animierte Portfolio-Website für Kreative mit interaktiven Elementen und Parallax-Effekten",
      image := "https://images.unsplash.com/photo-1467232004584-a241de8bcf5d?ixlib=rb-4.0.3&ixid=M3wxMjA3fDB8MHxwaG90by1wYWdlfHx8fGVufDB8fHx8fA%3D%3D&auto=format&fit=crop&w=800&h=500",
      category := Website,
      technologies := ["Framer Motion", "GSAP", "React"],
      features := ["Parallax Effects", "Smooth Animations", "Interactive Gallery", "Contact Form", "SEO Optimized"],
      challenges := "Die Implementation komplexer Animationen und die Optimierung der Performance bei vielen visuellen Effekten.",
      github := "#",
      demo := "#")

  const Project6: Project :=
    Project(
      id := "project6",
      title := "Analytics Dashboard",
      description := "Interaktives Dashboard für Datenvisualisierung mit Charts und Real-time Updates",
      image := "https://images.unsplash.com/photo-1551288049-bebda4e38f71?ixlib=rb-4.0.3&ixid=M3wxMjA3fDB8MHxwaG90by1wYWdlfHx8fGVufDB8fHx8fA%3D%3D&auto=format&fit=crop&w=800&h=500",
      category := WebApp,
      technologies := ["D3.js", "Chart.js", "API"],
      features := ["Real-time Data", "Interactive Charts", "Export Functions", "User Management", "Custom Dashboards"],
      challenges := "Die Integration verschiedener Chart-Libraries und die Optimierung der Datenverarbeitung für große Datensätze.",
      github := "#",
      demo := "#")

  /** The `projects` table handed to the gallery. */
  const Table: seq<Project> := [Project1, Project2, Project3, Project4, Project5, Project6]

  /** The ids are used as React list keys, so they must be pairwise distinct. */
  lemma TableIdsDistinct()
    ensures |Table| == 6
    ensures forall i, j :: 0 <= i < j < |Table| ==> Table[i].id != Table[j].id
  {
  }

  lemma TableIds()
    ensures |Table| == 6
    ensures Table[0].id == "project1" && Table[1].id == "project2" && Table[2].id == "project3"
    ensures Table[3].id == "project4" && Table[4].id == "project5" && Table[5].id == "project6"
  {
  }
}
