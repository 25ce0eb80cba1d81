/** Top-level navigation: the start gate, the `(view, selectedSubject,
    quizScore)` transitions, the back button, the narration text and the
    choice of what the main area shows. Clicks on buttons are methods of
    `App`. The subject, cases, flash-game, quiz start and quiz completion
    methods require the screen that shows their button; the jump, back and
    theme methods require only `hasStarted` (a back press while the button
    is hidden changes nothing). Every button but the start button requires
    `hasStarted`, since until then only the onboarding screen is rendered. */
module App {
  import opened Types
  import ThemeToggle

  datatype View = Syllabus | Game | FlashGame | Cases

  /** The navigation part of the state. */
  datatype Nav = Nav(view: View, subject: Option<Subject>, quizScore: Option<int>)

  /** What the main area shows. */
  datatype Screen = Dashboard | CasesDossier | SubjectSyllabus(subject: Subject) | Quiz(subject: Subject) | Blank

  const CasesNarration: string :=
    "Este é o seu Dossiê" + " de Campo Profissional. Aqui analisamos fatos reais "
      + "que moldaram as leis ambientais e os marcos éticos "
      + "que você deve seguir como biólogo licenciando do IFAL."
  const FlashNarration: string :=
    "Iniciando o Desafio" + " Bio-Flash! Pense rápido: AIA ou Bioética? Este "
      + "game integra as duas matérias para testar sua prontidão "
      + "técnica."
  const WelcomeNarration: string :=
    "Bem-vindo ao Painel" + " BioInterativo IFAL Maceió. Estude os dossiês de "
      + "casos reais ou vá direto para os simuladores técnicos "
      + "no menu de acesso rápido abaixo."
  const ModulePrefix: string := "Módulo de "
  const ModuleSuffix: string :=
    ". Analise a ementa" + " profissional e as curiosidades que aproximam a "
      + "ciência do nosso dia a dia."

  /** The narration, by priority: the cases dossier, then the flash game,
      then the dashboard welcome when no subject is chosen, then the
      module text naming the subject. */
  function NarrationText(view: View, subject: Option<Subject>): (t: string)
    ensures view == Cases ==> t == CasesNarration
    ensures view == FlashGame ==> t == FlashNarration
    ensures view != Cases && view != FlashGame && subject.None? ==> t == WelcomeNarration
    ensures view != Cases && view != FlashGame && subject.Some? ==>
      t == ModulePrefix + SubjectTitle(subject.value) + ModuleSuffix
  {
    if view == Cases then CasesNarration
    else if view == FlashGame then FlashNarration
    else if subject.None? then WelcomeNarration
    else ModulePrefix + SubjectTitle(subject.value) + ModuleSuffix
  }

  /** The narration speaks of a module exactly when a subject is chosen
      and neither the dossier nor the flash game is open. */
  lemma NarrationNamesModule(view: View, subject: Option<Subject>)
    ensures ModulePrefix <= NarrationText(view, subject) <==> subject.Some? && view != Cases && view != FlashGame
  {
    var t := NarrationText(view, subject);
    assert ModulePrefix[0] == 'M';
    if view == Cases {
      assert t[0] == 'E';
    } else if view == FlashGame {
      assert t[0] == 'I';
    } else if subject.None? {
      assert t[0] == 'B';
    } else {
      assert t[..|ModulePrefix|] == ModulePrefix;
    }
  }

  /** The main area: the dashboard when nothing is chosen, the dossier for
      `cases`, the subject's syllabus or quiz when a subject is chosen, and
      nothing otherwise. */
  function MainScreen(view: View, subject: Option<Subject>): (screen: Screen)
    ensures screen == Dashboard <==> subject.None? && view == Syllabus
    ensures screen == CasesDossier <==> view == Cases
    ensures screen == Blank <==> view == FlashGame || (view == Game && subject.None?)
    ensures screen.SubjectSyllabus? <==> view == Syllabus && subject.Some?
    ensures screen.Quiz? <==> view == Game && subject.Some?
    ensures screen.SubjectSyllabus? || screen.Quiz? ==> subject == Some(screen.subject)
  {
    match view
    case Syllabus => if subject.None? then Dashboard else SubjectSyllabus(subject.value)
    case Cases => CasesDossier
    case Game => if subject.Some? then Quiz(subject.value) else Blank
    case FlashGame => Blank
  }

  /** The header offers a back button when a subject is chosen or the view
      is not the syllabus. */
  predicate BackVisible(nav: Nav): (b: bool)
    ensures b <==> MainScreen(nav.view, nav.subject) != Dashboard
  {
    nav.subject.Some? || nav.view != Syllabus
  }

  /** `handleBack`. */
  function AfterBack(nav: Nav): (r: Nav)
    ensures !BackVisible(nav) ==> r == nav
    ensures nav.view == Game ==> r == Nav(Syllabus, nav.subject, None)
    ensures nav.view == Cases || nav.view == FlashGame ==> r == Nav(Syllabus, None, None)
    ensures nav.view == Syllabus && nav.subject.Some? ==> r == nav.(subject := None)
  {
    if nav.view != Syllabus || nav.subject.Some? then
      if nav.view == Game || nav.view == FlashGame || nav.view == Cases then
        Nav(Syllabus, if nav.view == Cases || nav.view == FlashGame then None else nav.subject, None)
      else nav.(subject := None)
    else nav
  }

  /** Back changes something exactly when the button is shown. */
  lemma AfterBackChangesIffVisible(nav: Nav)
    ensures AfterBack(nav) != nav <==> BackVisible(nav)
  {
  }

  /** At most two presses lead home to the dashboard, where the button is
      gone; from a subject's quiz it takes exactly two. */
  lemma TwoBacksReachHome(nav: Nav)
    ensures var r := AfterBack(AfterBack(nav)); !BackVisible(r) && MainScreen(r.view, r.subject) == Dashboard
    ensures nav.view == Game && nav.subject.Some? ==> BackVisible(AfterBack(nav))
  {
  }

  class App {
    var hasStarted: bool
    var selectedSubject: Option<Subject>
    var view: View
    var quizScore: Option<int>
    var theme: Theme

    /** A quiz always has its subject; the dossier and the flash game are
        reached from the dashboard and never carry one. */
    ghost predicate Valid()
      reads this
    {
      && (view == Game ==> selectedSubject.Some?)
      && (view == Cases || view == FlashGame ==> selectedSubject.None?)
    }

    function Navigation(): (nav: Nav)
      reads this
      ensures nav.view == view && nav.subject == selectedSubject && nav.quizScore == quizScore
    {
      Nav(view, selectedSubject, quizScore)
    }

    constructor ()
      ensures Valid()
      ensures !hasStarted && selectedSubject == None && view == Syllabus && quizScore == None && theme == Light
    {
      hasStarted := false;
      selectedSubject := None;
      view := Syllabus;
      quizScore := None;
      theme := Light;
    }

    /** `handleStart`; no other method writes `hasStarted`. */
    method Start()
      requires !hasStarted
      modifies this`hasStarted
      ensures hasStarted
    {
      hasStarted := true;
    }

    /** `handleBack`. */
    method HandleBack()
      requires hasStarted
      requires Valid()
      modifies this`view, this`selectedSubject, this`quizScore
      ensures Valid()
      ensures Navigation() == AfterBack(old(Navigation()))
    {
      if view != Syllabus || selectedSubject.Some? {
        if view == Game || view == FlashGame || view == Cases {
          var leaving := view;
          view := Syllabus;
          quizScore := None;
          if leaving == Cases || leaving == FlashGame {
            selectedSubject := None;
          }
        } else {
          selectedSubject := None;
        }
      }
    }

    /** `jumpToQuiz`: straight into a subject's quiz. */
    method JumpToQuiz(s: Subject)
      requires hasStarted
      requires Valid()
      modifies this`selectedSubject, this`view
      ensures Valid()
      ensures selectedSubject == Some(s) && view == Game
      ensures MainScreen(view, selectedSubject) == Quiz(s)
    {
      selectedSubject := Some(s);
      view := Game;
    }

    /** A subject card on the dashboard. */
    method SelectSubject(s: Subject)
      requires hasStarted
      requires Valid() && MainScreen(view, selectedSubject) == Dashboard
      modifies this`selectedSubject
      ensures Valid()
      ensures selectedSubject == Some(s) && MainScreen(view, selectedSubject) == SubjectSyllabus(s)
    {
      selectedSubject := Some(s);
    }

    /** The dossier button on the dashboard. */
    method OpenCases()
      requires hasStarted
      requires Valid() && MainScreen(view, selectedSubject) == Dashboard
      modifies this`view
      ensures Valid()
      ensures view == Cases && MainScreen(view, selectedSubject) == CasesDossier
    {
      view := Cases;
    }

    /** The flash-game button on the dashboard: the main area then shows
        nothing, as no branch renders that view. */
    method OpenFlashGame()
      requires hasStarted
      requires Valid() && MainScreen(view, selectedSubject) == Dashboard
      modifies this`view
      ensures Valid()
      ensures view == FlashGame && MainScreen(view, selectedSubject) == Blank
    {
      view := FlashGame;
    }

    /** The start-quiz button of a subject's syllabus. */
    method StartQuiz()
      requires hasStarted
      requires Valid() && MainScreen(view, selectedSubject).SubjectSyllabus?
      modifies this`view
      ensures Valid()
      ensures view == Game && MainScreen(view, selectedSubject) == Quiz(old(selectedSubject).value)
    {
      view := Game;
    }

    /** The quiz's completion callback. */
    method CompleteQuiz(score: int)
      requires hasStarted
      requires Valid() && MainScreen(view, selectedSubject).Quiz?
      modifies this`quizScore
      ensures Valid()
      ensures quizScore == Some(score)
    {
      quizScore := Some(score);
    }

    /** The theme button. */
    method ToggleTheme()
      requires hasStarted
      modifies this`theme
      ensures theme == ThemeToggle.NextTheme(old(theme))
    {
      theme := ThemeToggle.NextTheme(theme);
    }
  }
}
