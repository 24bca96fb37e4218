/** The fixed option tables of the creation wizard: the two step orders,
    the cake bases with their shapes, the colour ids and the step labels. */
module CreationOptions {
  import opened Common

  /** The two wizard variants. */
  datatype Mode = PetitChef | GrandPatissier {
    function Key(): string {
      match this
      case PetitChef => "petit-chef"
      case GrandPatissier => "grand-patissier"
    }
  }

  /** A wizard step; `Key` is the string the step is known by. */
  datatype Step = Theme | Base | Flavor | Decoration | Colors | Message | Preview {
    function Key(): string {
      match this
      case Theme => "theme"
      case Base => "base"
      case Flavor => "flavor"
      case Decoration => "decoration"
      case Colors => "colors"
      case Message => "message"
      case Preview => "preview"
    }
  }

  const PetitChefSteps: seq<Step> := [Theme, Flavor, Message, Preview]
  const GrandPatissierSteps: seq<Step> := [Base, Flavor, Decoration, Colors, Message, Preview]

  /** The step order a mode fixes. */
  function StepsFor(mode: Mode): (steps: seq<Step>)
    ensures |steps| > 0 && Distinct(steps) && steps[|steps| - 1] == Preview
  {
    if mode == PetitChef then PetitChefSteps else GrandPatissierSteps
  }

  datatype CakeShape = CakeShape(id: string, title: string)
  datatype CakeBase = CakeBase(id: string, title: string, shapes: seq<CakeShape>)

  const CakeBases: seq<CakeBase> := [
    CakeBase("round", "Rond", [CakeShape("round-classic", "Classique"), CakeShape("round-tall", "Haut (2 etages)")]),
    CakeBase("square", "Carre", [CakeShape("square-classic", "Classique"), CakeShape("square-tiered", "A etages")]),
    CakeBase("heart", "Coeur", [CakeShape("heart-simple", "Simple")]),
    CakeBase("star", "Etoile", [CakeShape("star-simple", "Simple")])
  ]

  datatype CakeColor = CakeColor(id: string, title: string, hex: string)

  const CakeColors: seq<CakeColor> := [
    CakeColor("pink", "Rose", "#FFB6C1"),
    CakeColor("blue", "Bleu", "#87CEEB"),
    CakeColor("purple", "Violet", "#DDA0DD"),
    CakeColor("green", "Vert", "#90EE90"),
    CakeColor("yellow", "Jaune", "#FFC947"),
    CakeColor("orange", "Orange", "#FF8E53"),
    CakeColor("red", "Rouge", "#FF6B6B"),
    CakeColor("white", "Blanc", "#FFFFFF"),
    CakeColor("brown", "Marron", "#8B4513"),
    CakeColor("turquoise", "Turquoise", "#00CED1")
  ]

  function ColorIds(colors: seq<CakeColor>): (ids: seq<string>)
    ensures |ids| == |colors|
    ensures forall i :: 0 <= i < |colors| ==> ids[i] == colors[i].id
  {
    seq(|colors|, i requires 0 <= i < |colors| => colors[i].id)
  }

  /** Step labels keyed by step name (the icons are left out). */
  const StepLabels: map<string, string> := map[
    "theme" := "Theme",
    "base" := "Forme",
    "flavor" := "Saveur",
    "decoration" := "Deco",
    "colors" := "Couleurs",
    "message" := "Message",
    "preview" := "Apercu"
  ]

  /** The step keys name the steps unambiguously. */
  lemma StepKeysInjective(a: Step, b: Step)
    ensures a.Key() == b.Key() <==> a == b
  {
  }

  /** Both step orders are duplicate-free and end on the preview, so the
      reducers' indexOf finds each step at one position. */
  lemma StepListsWellFormed()
    ensures PetitChefSteps == [Theme, Flavor, Message, Preview]
    ensures GrandPatissierSteps == [Base, Flavor, Decoration, Colors, Message, Preview]
    ensures Distinct(PetitChefSteps) && Distinct(GrandPatissierSteps)
    ensures PetitChefSteps[|PetitChefSteps| - 1] == Preview
    ensures GrandPatissierSteps[|GrandPatissierSteps| - 1] == Preview
  {
  }

  /** The base step may auto-select `shapes[0]` of any base. */
  lemma EveryBaseHasAShape()
    ensures forall b :: b in CakeBases ==> |b.shapes| >= 1
  {
  }

  lemma ColorIdsDistinct()
    ensures |CakeColors| == 10
    ensures Distinct(ColorIds(CakeColors))
  {
  }

  /** Every step of either order has a label. */
  lemma StepLabelsCoverSteps()
    ensures forall s :: s in PetitChefSteps + GrandPatissierSteps ==> s.Key() in StepLabels
  {
  }
}
