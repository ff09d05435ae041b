/** The plans screen (components/Pricing.tsx): the simulated payment
    sequence of the upgrade button, the two feature lists and the buttons'
    enabled states and labels.

    The three timed pauses of the payment sequence are not modelled; the
    handler is one run that records the statuses it shows, in order, and
    the moment it calls the parent's `onUpgrade`. */
module Pricing {
  import opened Types
  import Api
  import App
  import Constants

  datatype PaymentStatus = Idle | Redirecting | Processing | Success

  /** What the upgrade handler does, in order. */
  datatype PaymentStep = Show(status: PaymentStatus) | CallUpgrade

  datatype Feature = Feature(text: string, included: bool)

  const FreeFeatures: seq<Feature> := [
    Feature("Acesso ao par BTC/USDT", true),
    Feature("Alertas limitados", true),
    Feature("2 análises por print/dia", true),
    Feature("Backtesting simplificado", true),
    Feature("Todos os pares liberados", false),
    Feature("Sinais antecipados", false),
    Feature("Backtesting completo", false),
    Feature("Estratégias avançadas", false),
    Feature("Acesso total à comunidade", false)
  ]

  /** `freeFeatures.map(f => ({ ...f, included: true }))` */
  function AllIncluded(features: seq<Feature>): (r: seq<Feature>)
    ensures |r| == |features|
    ensures forall k :: 0 <= k < |r| ==> r[k].text == features[k].text && r[k].included
  {
    seq(|features|, k requires 0 <= k < |features| => features[k].(included := true))
  }

  /** The premium list names the free list's features in the same order,
      all included; the free list includes its first four and none of its
      last five. */
  lemma FeatureLists()
    ensures |FreeFeatures| == 9
    ensures forall k :: 0 <= k < |FreeFeatures| ==> (FreeFeatures[k].included <==> k < 4)
    ensures var premium := AllIncluded(FreeFeatures);
      |premium| == |FreeFeatures|
      && (forall k :: 0 <= k < |premium| ==> premium[k].text == FreeFeatures[k].text && premium[k].included)
  {
  }

  predicate IsCurrentUserFree(user: Option<User>)
  {
    user.Some? && user.value.role == Free
  }

  predicate IsCurrentUserPremium(user: Option<User>)
  {
    user.Some? && user.value.role == Premium
  }

  /** The free plan's button: disabled, and labelled as the current plan,
      exactly for a free user. */
  function FreeButton(user: Option<User>): (r: (bool, string))
    ensures r.0 <==> IsCurrentUserFree(user)
    ensures r.1 == (if IsCurrentUserFree(user) then "Seu Plano Atual" else "Plano Gratuito")
  {
    var free := IsCurrentUserFree(user);
    (free, if free then "Seu Plano Atual" else "Plano Gratuito")
  }

  /** The premium button's `disabled` rule. */
  predicate PremiumButtonDisabled(user: Option<User>, status: PaymentStatus)
  {
    IsCurrentUserPremium(user) || status != Idle
  }

  /** `getButtonContent()`: one label per payment status; when idle, the
      label depends on whether the user is already premium. */
  function PremiumButtonLabel(user: Option<User>, status: PaymentStatus): string
  {
    match status
    case Redirecting => "Conectando ao Stripe..."
    case Processing => "Processando Pagamento..."
    case Success => "Pagamento Aprovado!"
    case Idle => if IsCurrentUserPremium(user) then "Você já é Premium" else "Obter Acesso Vitalício"
  }

  /** Each status shows its own label, so the label tells the step; and
      while a payment is under way the button cannot start another. */
  lemma LabelsTellTheStep(user: Option<User>, u2: Option<User>, s: PaymentStatus, t: PaymentStatus)
    requires s != t && s != Idle && t != Idle
    ensures PremiumButtonLabel(user, s) != PremiumButtonLabel(u2, t)
    ensures PremiumButtonLabel(user, s) != PremiumButtonLabel(u2, Idle)
    ensures PremiumButtonDisabled(user, s)
  {
  }

  class PricingState {
    var paymentStatus: PaymentStatus

    /** The initial state of `useState`. */
    constructor ()
      ensures paymentStatus == Idle
    {
      paymentStatus := Idle;
    }

    /** `handleUpgradeClick`: redirecting, processing and success are shown
        in turn, then `onUpgrade` is called, and once it resolves the status
        returns to idle. If it rejected, the handler would stop with the
        status left at success. */
    method HandleUpgradeClick(upgradeResolves: bool) returns (steps: seq<PaymentStep>)
      modifies this
      ensures steps == [Show(Redirecting), Show(Processing), Show(Success), CallUpgrade]
        + (if upgradeResolves then [Show(Idle)] else [])
      ensures paymentStatus == (if upgradeResolves then Idle else Success)
      ensures forall k :: 0 <= k < |steps| && steps[k].Show? && steps[k].status != Idle ==>
        k < 3 && CallUpgrade !in steps[..k]
    {
      paymentStatus := Redirecting;
      steps := [Show(paymentStatus)];
      paymentStatus := Processing;
      steps := steps + [Show(paymentStatus)];
      paymentStatus := Success;
      steps := steps + [Show(paymentStatus)];
      steps := steps + [CallUpgrade];
      if upgradeResolves {
        paymentStatus := Idle;
        steps := steps + [Show(paymentStatus)];
      }
    }
  }

  // ---------------------------------------------------------------------
  // Upgrade reachable by an administrator
  // ---------------------------------------------------------------------

  /** Role order: an upgrade is meant never to lower it. */
  function RoleRank(role: UserRole): int
  {
    match role
    case Free => 0
    case Premium => 1
    case Admin => 2
  }

  /** As written, the button is enabled for the seeded administrator, and
      the upgrade it triggers replaces that account by a premium copy, which
      the shell then refuses the admin page. */
  lemma AdminUpgradeLosesAdminPage()
    ensures var admin := Constants.MockUsers[0];
      && admin.role == Admin
      && !PremiumButtonDisabled(Some(admin), Idle)
      && Api.UpgradePlan(Constants.MockUsers, admin.id).Ok?
      && var upgraded := Api.UpgradePlan(Constants.MockUsers, admin.id).value;
        RoleRank(upgraded.role) < RoleRank(admin.role)
        && App.Render(Some(admin), "admin") == App.AdminScreen
        && App.Render(Some(upgraded), "admin") == App.AccessDenied
  {
    AnyListedAdminLosesAdminPage(Constants.MockUsers, Constants.MockUsers[0]);
  }

  /** The same for any administrator listed first in any user list. */
  lemma AnyListedAdminLosesAdminPage(users: seq<User>, admin: User)
    requires |users| > 0 && users[0] == admin && admin.role == Admin
    ensures !PremiumButtonDisabled(Some(admin), Idle)
    ensures Api.UpgradePlan(users, admin.id) == Ok(admin.(role := Premium, plan := "Premium"))
    ensures App.Render(Some(admin), "admin") == App.AdminScreen
    ensures App.Render(Some(admin.(role := Premium, plan := "Premium")), "admin") == App.AccessDenied
  {
    assert Api.IndexOfUserId(users, admin.id) == 0;
  }

  /** The evidently intended rule: the upgrade is offered only to a free
      account, as the free plan's "current plan" marking suggests. */
  predicate UpgradeButtonDisabled(user: Option<User>, status: PaymentStatus)
  {
    !IsCurrentUserFree(user) || status != Idle
  }

  /** With that rule, an upgrade the button lets through never lowers the
      account's role. */
  lemma EnabledUpgradeNeverLowersRole(users: seq<User>, user: User)
    requires !UpgradeButtonDisabled(Some(user), Idle)
    ensures var r := Api.UpgradePlan(users, user.id);
      r.Ok? ==> RoleRank(r.value.role) > RoleRank(user.role)
  {
  }
}
