/**
  The effect sprite assets: one texture-atlas layout and one image per
  sprite effect, each loaded from its own asset key, and the lookups from
  an effect type to its layout and image.
 */
module Effects {
  import opened Wrappers

  /** The visual effects a spawnable can show; `Text` is drawn as text, not as a sprite. */
  datatype EffectType =
    | AllyBlastExplosion
    | AllyBlastDespawn
    | MobExplosion
    | ConsumableDespawn
    | EnemyBlastExplosion
    | EnemyBlastDespawn
    | BarrierGlow
    | AllyBulletDespawn
    | EnemyBulletDespawn
    | AllyBulletExplosion
    | EnemyBulletExplosion
    | Text(text: string)

  /** The two assets of a sprite effect. */
  datatype AssetKind = Layout | Image

  /** An asset key, `<stem>.layout` or `<stem>.image`, kept as its stem and its kind. */
  datatype AssetKey = AssetKey(stem: string, kind: AssetKind)

  /** The key as the asset loader reads it. */
  function KeyText(key: AssetKey): string {
    key.stem + (if key.kind == Layout then ".layout" else ".image")
  }

  /** A handle to a loaded asset, identified by the key it was loaded from. */
  datatype Handle = Handle(key: AssetKey)

  /** The asset collection: a layout handle and an image handle per sprite effect. */
  datatype EffectAssets = EffectAssets(
    allyBlastExplosionLayout: Handle,
    allyBlastExplosionImage: Handle,
    enemyBlastExplosionLayout: Handle,
    enemyBlastExplosionImage: Handle,
    allyBlastDespawnLayout: Handle,
    allyBlastDespawnImage: Handle,
    enemyBlastDespawnLayout: Handle,
    enemyBlastDespawnImage: Handle,
    allyBulletDespawnLayout: Handle,
    allyBulletDespawnImage: Handle,
    enemyBulletDespawnLayout: Handle,
    enemyBulletDespawnImage: Handle,
    allyBulletExplosionLayout: Handle,
    allyBulletExplosionImage: Handle,
    enemyBulletExplosionLayout: Handle,
    enemyBulletExplosionImage: Handle,
    mobExplosionLayout: Handle,
    mobExplosionImage: Handle,
    consumableDespawnLayout: Handle,
    consumableDespawnImage: Handle,
    barrierGlowLayout: Handle,
    barrierGlowImage: Handle
  )

  /**
    The key convention of the collection for one sprite effect: its layout
    and its image come from `<stem>.layout` and `<stem>.image` of one stem,
    and that stem names the effect.
   */
  predicate KeyedFor(assets: EffectAssets, effect: EffectType)
    requires !effect.Text?
  {
    var layout, image := GetTextureAtlasLayout(assets, effect).value.key, GetImage(assets, effect).value.key;
    layout.kind == Layout && image.kind == Image && layout.stem == image.stem
    && EffectForStem(layout.stem) == Some(effect)
  }

  /** Every sprite effect's fields follow the key convention. */
  ghost predicate WellKeyed(assets: EffectAssets) {
    forall effect: EffectType :: !effect.Text? ==> KeyedFor(assets, effect)
  }

  /** The collection as the asset loader fills it: every field holds the asset of its key. */
  function Loaded(): (r: EffectAssets)
    ensures WellKeyed(r)
  {
    EffectAssets(
      Handle(AssetKey("ally_blast_explosion", Layout)),
      Handle(AssetKey("ally_blast_explosion", Image)),
      Handle(AssetKey("enemy_blast_explosion", Layout)),
      Handle(AssetKey("enemy_blast_explosion", Image)),
      Handle(AssetKey("ally_blast_despawn", Layout)),
      Handle(AssetKey("ally_blast_despawn", Image)),
      Handle(AssetKey("enemy_blast_despawn", Layout)),
      Handle(AssetKey("enemy_blast_despawn", Image)),
      Handle(AssetKey("ally_bullet_despawn", Layout)),
      Handle(AssetKey("ally_bullet_despawn", Image)),
      Handle(AssetKey("enemy_bullet_despawn", Layout)),
      Handle(AssetKey("enemy_bullet_despawn", Image)),
      Handle(AssetKey("ally_bullet_explosion", Layout)),
      Handle(AssetKey("ally_bullet_explosion", Image)),
      Handle(AssetKey("enemy_bullet_explosion", Layout)),
      Handle(AssetKey("enemy_bullet_explosion", Image)),
      Handle(AssetKey("mob_explosion", Layout)),
      Handle(AssetKey("mob_explosion", Image)),
      Handle(AssetKey("consumable_despawn", Layout)),
      Handle(AssetKey("consumable_despawn", Image)),
      Handle(AssetKey("barrier_glow", Layout)),
      Handle(AssetKey("barrier_glow", Image))
    )
  }

  /** The texture-atlas layout of an effect; a text effect has none. */
  function GetTextureAtlasLayout(assets: EffectAssets, effect: EffectType): (r: Option<Handle>)
    ensures r.None? <==> effect.Text?
  {
    match effect
    case AllyBlastExplosion => Some(assets.allyBlastExplosionLayout)
    case AllyBlastDespawn => Some(assets.allyBlastDespawnLayout)
    case MobExplosion => Some(assets.mobExplosionLayout)
    case ConsumableDespawn => Some(assets.consumableDespawnLayout)
    case EnemyBlastExplosion => Some(assets.enemyBlastExplosionLayout)
    case EnemyBlastDespawn => Some(assets.enemyBlastDespawnLayout)
    case BarrierGlow => Some(assets.barrierGlowLayout)
    case AllyBulletDespawn => Some(assets.allyBulletDespawnLayout)
    case EnemyBulletDespawn => Some(assets.enemyBulletDespawnLayout)
    case AllyBulletExplosion => Some(assets.allyBulletExplosionLayout)
    case EnemyBulletExplosion => Some(assets.enemyBulletExplosionLayout)
    case Text(_) => None
  }

  /** The image of an effect; a text effect has none. */
  function GetImage(assets: EffectAssets, effect: EffectType): (r: Option<Handle>)
    ensures r.None? <==> effect.Text?
  {
    match effect
    case AllyBlastExplosion => Some(assets.allyBlastExplosionImage)
    case AllyBlastDespawn => Some(assets.allyBlastDespawnImage)
    case MobExplosion => Some(assets.mobExplosionImage)
    case ConsumableDespawn => Some(assets.consumableDespawnImage)
    case EnemyBlastExplosion => Some(assets.enemyBlastExplosionImage)
    case EnemyBlastDespawn => Some(assets.enemyBlastDespawnImage)
    case BarrierGlow => Some(assets.barrierGlowImage)
    case AllyBulletDespawn => Some(assets.allyBulletDespawnImage)
    case EnemyBulletDespawn => Some(assets.enemyBulletDespawnImage)
    case AllyBulletExplosion => Some(assets.allyBulletExplosionImage)
    case EnemyBulletExplosion => Some(assets.enemyBulletExplosionImage)
    case Text(_) => None
  }

  /** The sprite effect whose assets carry the key stem `stem`, if any. */
  function EffectForStem(stem: string): Option<EffectType> {
    if stem == "ally_blast_explosion" then Some(AllyBlastExplosion)
    else if stem == "ally_blast_despawn" then Some(AllyBlastDespawn)
    else if stem == "mob_explosion" then Some(MobExplosion)
    else if stem == "consumable_despawn" then Some(ConsumableDespawn)
    else if stem == "enemy_blast_explosion" then Some(EnemyBlastExplosion)
    else if stem == "enemy_blast_despawn" then Some(EnemyBlastDespawn)
    else if stem == "barrier_glow" then Some(BarrierGlow)
    else if stem == "ally_bullet_despawn" then Some(AllyBulletDespawn)
    else if stem == "enemy_bullet_despawn" then Some(EnemyBulletDespawn)
    else if stem == "ally_bullet_explosion" then Some(AllyBulletExplosion)
    else if stem == "enemy_bullet_explosion" then Some(EnemyBulletExplosion)
    else None
  }

  /** Presence agrees: an effect has a layout exactly when it has an image. */
  lemma LookupsAgree(assets: EffectAssets, effect: EffectType)
    ensures GetTextureAtlasLayout(assets, effect).Some? <==> GetImage(assets, effect).Some?
  {
  }

  lemma {:induction false} SuffixCancel(a: string, b: string, suffix: string)
    ensures a + suffix == b + suffix ==> a == b
  {
    if a + suffix == b + suffix {
      assert |a| == |b|;
      assert a == (a + suffix)[..|a|];
      assert b == (b + suffix)[..|b|];
    }
  }

  /** Distinct keys are distinct strings: a key text determines its stem and kind. */
  lemma KeyTextInjective(k1: AssetKey, k2: AssetKey)
    ensures KeyText(k1) == KeyText(k2) ==> k1 == k2
  {
    var t1, t2 := KeyText(k1), KeyText(k2);
    if k1.kind == k2.kind {
      SuffixCancel(k1.stem, k2.stem, if k1.kind == Layout then ".layout" else ".image");
    } else {
      assert t1[|t1| - 1] != t2[|t2| - 1];
    }
  }

  /**
    Distinct sprite effects get distinct layouts and distinct images from
    any collection that follows the key convention, such as the loaded one,
    so both lookups are injective, down to the key strings the loader reads.
   */
  lemma WellKeyedLookupsInjective(assets: EffectAssets, e1: EffectType, e2: EffectType)
    requires WellKeyed(assets)
    requires !e1.Text? && !e2.Text?
    requires e1 != e2
    ensures GetTextureAtlasLayout(assets, e1) != GetTextureAtlasLayout(assets, e2)
    ensures GetImage(assets, e1) != GetImage(assets, e2)
    ensures KeyText(GetTextureAtlasLayout(assets, e1).value.key) != KeyText(GetTextureAtlasLayout(assets, e2).value.key)
    ensures KeyText(GetImage(assets, e1).value.key) != KeyText(GetImage(assets, e2).value.key)
  {
    assert KeyedFor(assets, e1) && KeyedFor(assets, e2);
    KeyTextInjective(GetTextureAtlasLayout(assets, e1).value.key, GetTextureAtlasLayout(assets, e2).value.key);
    KeyTextInjective(GetImage(assets, e1).value.key, GetImage(assets, e2).value.key);
  }
}
